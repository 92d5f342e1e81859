/** Round trips of the wire format, and exactly when they hold. */
module CodecLaws {
  import opened Bytes
  import opened Codec

  lemma Get2Put2(v: int16)
    ensures Get2(Put2(v)) == v
  {
  }

  lemma Get3Low3(n: nat)
    ensures Get3(Low3(n)) == n % 0x100_0000
  {
    var r := 0x1_0000 * (n / 0x1_0000 % 0x100) + 0x100 * (n / 0x100 % 0x100) + n % 0x100;
    ThreeDigits(n, r);
  }

  lemma ThreeDigits(n: nat, r: nat)
    requires r == 0x1_0000 * (n / 0x1_0000 % 0x100) + 0x100 * (n / 0x100 % 0x100) + n % 0x100
    ensures r == n % 0x100_0000
  {
    var a, b := n / 0x100, n / 0x1_0000;
    assert a == 0x100 * b + a % 0x100;
    assert n == 0x100 * a + n % 0x100;
    assert b == 0x100 * (b / 0x100) + b % 0x100;
    assert n == 0x100_0000 * (b / 0x100) + r && 0 <= r < 0x100_0000;
  }

  lemma Get4Put4(v: int32)
    ensures Get4(Put4(v)) == v
  {
    var u := v as int % 0x1_0000_0000;
    Get3Low3(u);
    assert Put4(v)[1..] == Low3(u);
  }

  lemma Split(a: bytes, b: bytes)
    ensures (a + b)[..|a|] == a && (a + b)[|a|..] == b
  {
  }

  // ---- Ext fields ----

  predicate Fits(k: bytes, v: bytes) { |k| < 0x8000 && |v| < 0x8000_0000 }

  lemma GetPutPair(k: bytes, v: bytes, rest: bytes, m: map<bytes, bytes>)
    requires Fits(k, v)
    ensures GetPairs(PutPair(k, v) + rest, m) == GetPairs(rest, m[k := v])
  {
    var kWord, vWord := Put2(ToInt16(|k|)), Put4(ToInt32(|v|));
    var s3 := v + rest;
    var s2 := vWord + s3;
    var s1 := k + s2;
    assert PutPair(k, v) + rest == kWord + s1;
    Split(kWord, s1);
    Split(k, s2);
    Split(vWord, s3);
    Split(v, rest);
    Get2Put2(ToInt16(|k|));
    Get4Put4(ToInt32(|v|));
  }

  /** The map built by visiting `order`: later entries win. */
  function Collect(order: seq<bytes>, m: map<bytes, bytes>, acc: map<bytes, bytes>): map<bytes, bytes>
    requires forall k :: k in order ==> k in m
  {
    if order == [] then acc else Collect(order[1..], m, acc[order[0] := m[order[0]]])
  }

  lemma {:induction false} GetPutPairs(order: seq<bytes>, m: map<bytes, bytes>, acc: map<bytes, bytes>)
    requires forall k :: k in order ==> k in m && Fits(k, m[k])
    ensures GetPairs(PutPairs(order, m), acc) == Ok(Collect(order, m, acc))
  {
    if order != [] {
      GetPutPair(order[0], m[order[0]], PutPairs(order[1..], m), acc);
      GetPutPairs(order[1..], m, acc[order[0] := m[order[0]]]);
    }
  }

  lemma {:induction false} CollectIs(order: seq<bytes>, m: map<bytes, bytes>, acc: map<bytes, bytes>)
    requires forall k :: k in order ==> k in m
    ensures var r := Collect(order, m, acc);
            && r.Keys == acc.Keys + (set k | k in order)
            && forall k :: k in r ==> r[k] == if k in order then m[k] else acc[k]
  {
    if order != [] {
      var acc' := acc[order[0] := m[order[0]]];
      CollectIs(order[1..], m, acc');
      assert forall k :: k in order <==> k == order[0] || k in order[1..];
    }
  }

  lemma CollectAll(order: seq<bytes>, m: map<bytes, bytes>)
    requires IsEnumeration(order, m.Keys)
    ensures Collect(order, m, map[]) == m
  {
    CollectIs(order, m, map[]);
  }

  /** The ext-field map survives whatever order it was visited in. */
  lemma PairsRoundTrip(order: seq<bytes>, m: map<bytes, bytes>)
    requires IsEnumeration(order, m.Keys) && forall k :: k in m ==> Fits(k, m[k])
    ensures GetPairs(PutPairs(order, m), map[]) == Ok(m)
  {
    GetPutPairs(order, m, map[]);
    CollectAll(order, m);
  }

  /** Every key that decoding can produce has a length that int16 can count. */
  lemma {:induction false} DecodedKeysAreShort(s: bytes, m: map<bytes, bytes>)
    requires forall k :: k in m ==> |k| < 0x8000
    ensures var r := GetPairs(s, m); r.Ok? ==> forall k :: k in r.value ==> |k| < 0x8000
    decreases |s|
  {
    if |s| >= 2 {
      var kLen := Get2(s[..2]) as int;
      var s1 := s[2..];
      if 0 <= kLen <= |s1| && |s1[kLen..]| >= 4 {
        var s2 := s1[kLen..];
        var vLen := Get4(s2[..4]) as int;
        var s3 := s2[4..];
        if 0 <= vLen <= |s3| {
          DecodedKeysAreShort(s3[vLen..], m[s1[..kLen] := s3[..vLen]]);
        }
      }
    }
  }

  // ---- Header and frame ----

  lemma GetPutBlob(b: bytes, rest: bytes)
    requires |b| < 0x8000_0000
    ensures GetBlob(Put4(ToInt32(|b|)) + (b + rest)) == Ok((b, rest))
  {
    var word := Put4(ToInt32(|b|));
    Split(word, b + rest);
    Split(b, rest);
    Get4Put4(ToInt32(|b|));
    assert b == [] ==> b + rest == rest;
  }

  lemma {:induction false} GetPutHeader(c: Command, ext: bytes)
    requires |c.remark| < 0x8000_0000 && |ext| < 0x8000_0000
    ensures GetHeader(PutHeader(c, ext)) ==
            match GetPairs(ext, map[])
            case Ok(m) => Ok(c.(language := LANGUAGE_GO, ext := m, body := []))
            case Err => Err
            case Panic => Panic
  {
    var s6 := Put4(ToInt32(|ext|)) + ext;
    var s5 := Put4(ToInt32(|c.remark|)) + (c.remark + s6);
    var s4 := Put4(c.flag) + s5;
    var s3 := Put4(c.opaqueId) + s4;
    var s2 := Put2(c.version) + s3;
    var s1 := [LANGUAGE_GO] + s2;
    Split(Put2(c.code), s1);
    Split([LANGUAGE_GO], s2);
    Split(Put2(c.version), s3);
    Split(Put4(c.opaqueId), s4);
    Split(Put4(c.flag), s5);
    GetPutBlob(c.remark, s6);
    assert ext + [] == ext;
    GetPutBlob(ext, []);
    Get2Put2(c.code);
    Get2Put2(c.version);
    Get4Put4(c.opaqueId);
    Get4Put4(c.flag);
  }

  lemma PayloadParts(codec: byte, header: bytes, body: bytes)
    ensures var p := Payload(codec, header, body);
            && |p| == 4 + |header| + |body| && p[0] == codec && p[1..4] == Low3(|header|) && p[4..] == header + body
  {
    var p := Payload(codec, header, body);
    assert p[1..4] == Low3(|header|);
    assert p[4..] == header + body;
  }

  /** The body length that decoding computes back from the frame length, in int32 arithmetic. */
  lemma BodyLength(h: nat, b: nat)
    requires 4 + h + b < 0x8000_0000
    ensures ToInt32(ToInt32(4 + h + b) as int - 4 - h) as int == b
  {
  }

  /** Framing alone: a header under 2^24 bytes comes back whole, with the body behind it. */
  lemma DecodePayload(codec: byte, header: bytes, body: bytes, json: bytes -> Result<Command>)
    requires |header| < 0x100_0000 && 4 + |header| + |body| < 0x8000_0000
    requires codec == JSON_CODEC || codec == ROCKETMQ_CODEC
    ensures var h := if codec == JSON_CODEC then json(header) else GetHeader(header);
            var r := Decode(Payload(codec, header, body), json);
            if !h.Ok? then r == h else if body == [] then r == h else r == Ok(h.value.(body := body))
  {
    PayloadParts(codec, header, body);
    Get3Low3(|header|);
    DecodeParts(Payload(codec, header, body), header, body, json);
  }

  /** Decoding data whose parts are known. */
  lemma DecodeParts(p: bytes, header: bytes, body: bytes, json: bytes -> Result<Command>)
    requires |p| == 4 + |header| + |body| < 0x8000_0000 && Get3(p[1..4]) == |header| && p[4..] == header + body
    requires p[0] == JSON_CODEC || p[0] == ROCKETMQ_CODEC
    ensures var h := if p[0] == JSON_CODEC then json(header) else GetHeader(header);
            var r := Decode(p, json);
            if !h.Ok? then r == h else if body == [] then r == h else r == Ok(h.value.(body := body))
  {
    Split(header, body);
    BodyLength(|header|, |body|);
    assert body[..|body|] == body;
  }

  /** A header of 2^24 bytes or more loses its high bits and part of it turns up in the body. */
  lemma OversizedHeaderSpills(codec: byte, header: bytes, body: bytes, json: bytes -> Result<Command>)
    requires |header| >= 0x100_0000 && 4 + |header| + |body| < 0x8000_0000
    ensures var r := Decode(Payload(codec, header, body), json);
            r.Ok? ==> |r.value.body| > |body|
  {
    PayloadParts(codec, header, body);
    Get3Low3(|header|);
  }

  /** Decoding an encoded command gives it back, language fixed to Go, whatever order the ext
      fields were written in -- if and only if every key is under 2^15 bytes and the header
      under 2^24. */
  lemma RoundTripIff(c: Command, order: seq<bytes>, json: bytes -> Result<Command>)
    requires IsEnumeration(order, c.ext.Keys)
    requires 4 + |Header(c, order)| + |c.body| < 0x8000_0000
    ensures Decode(Payload(ROCKETMQ_CODEC, Header(c, order), c.body), json) == Ok(c.(language := LANGUAGE_GO))
       <==> |Header(c, order)| < 0x100_0000 && forall k :: k in c.ext ==> |k| < 0x8000
  {
    var header, ext := Header(c, order), PutPairs(order, c.ext);
    HeaderSize(c, ext);
    if |header| >= 0x100_0000 {
      OversizedHeaderSpills(ROCKETMQ_CODEC, header, c.body, json);
    } else {
      GetPutHeader(c, ext);
      DecodePayload(ROCKETMQ_CODEC, header, c.body, json);
      DecodedKeysAreShort(ext, map[]);
      if forall k :: k in c.ext ==> |k| < 0x8000 {
        forall k | k in c.ext ensures Fits(k, c.ext[k]) { PairSize(order, c.ext, k); }
        PairsRoundTrip(order, c.ext);
      }
    }
  }

  lemma HeaderSize(c: Command, ext: bytes)
    ensures |PutHeader(c, ext)| == 21 + |c.remark| + |ext|
  {
  }

  lemma {:induction false} PairSize(order: seq<bytes>, m: map<bytes, bytes>, k: bytes)
    requires (forall x :: x in order ==> x in m) && k in order
    ensures |m[k]| < |PutPairs(order, m)|
  {
    if order[0] != k { PairSize(order[1..], m, k); }
  }

  // ---- Streams of frames ----

  function Concat(payloads: seq<bytes>): bytes {
    if payloads == [] then [] else Frame(payloads[0]) + Concat(payloads[1..])
  }

  /** Reads frames the way a connection is read: a length word, a positive length, that many
      bytes. None when the stream is cut short or a length is not positive. */
  function SplitFrames(s: bytes): (r: Option<seq<bytes>>)
    decreases |s|
  {
    if s == [] then Some([])
    else if |s| < 4 then None
    else
      var n := Get4(s[..4]) as int;
      var rest := s[4..];
      if n <= 0 || |rest| < n then None
      else
        var tail := SplitFrames(rest[n..]);
        if tail.None? then None else Some([rest[..n]] + tail.value)
  }

  predicate Sendable(p: bytes) { 0 < |p| < 0x8000_0000 }

  lemma ReadFrame(p: bytes, rest: bytes)
    requires Sendable(p)
    ensures var s := Frame(p) + rest;
            |s| >= 4 && Get4(s[..4]) as int == |p| && |s[4..]| >= |p| && s[4..][..|p|] == p && s[4..][|p|..] == rest
  {
    var word := Put4(ToInt32(|p|));
    assert Frame(p) + rest == word + (p + rest);
    Split(word, p + rest);
    Split(p, rest);
    Get4Put4(ToInt32(|p|));
  }

  /** Any concatenation of frames splits back into exactly its payloads. */
  lemma {:induction false} SplitConcat(payloads: seq<bytes>)
    requires forall i :: 0 <= i < |payloads| ==> Sendable(payloads[i])
    ensures SplitFrames(Concat(payloads)) == Some(payloads)
  {
    if payloads != [] {
      ReadFrame(payloads[0], Concat(payloads[1..]));
      SplitConcat(payloads[1..]);
      assert payloads == [payloads[0]] + payloads[1..];
    }
  }

  /** One byte stream is the concatenation of at most one list of frames. */
  lemma ConcatInjective(p: seq<bytes>, q: seq<bytes>)
    requires forall i :: 0 <= i < |p| ==> Sendable(p[i])
    requires forall i :: 0 <= i < |q| ==> Sendable(q[i])
    requires Concat(p) == Concat(q)
    ensures p == q
  {
    SplitConcat(p);
    SplitConcat(q);
  }

  /** A key of 2^15 bytes makes its own length word negative. */
  lemma LongKeyPanics(k: bytes, v: bytes, rest: bytes, m: map<bytes, bytes>)
    requires 0x8000 <= |k| < 0x1_0000
    ensures GetPairs(PutPair(k, v) + rest, m) == Panic
  {
    var word, x := Put2(ToInt16(|k|)), k + (Put4(ToInt32(|v|)) + v);
    assert (word + x) + rest == word + (x + rest);
    Split(word, x + rest);
    Get2Put2(ToInt16(|k|));
    assert ToInt16(|k|) as int < 0;
  }
}
