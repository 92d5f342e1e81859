/** The RocketMQ wire format: big-endian integers, the binary header, the frame around it.
    The functions are the format; the methods are the source's sequential reads and writes. */
module Codec {
  import opened Bytes

  newtype int16 = x: int | -0x8000 <= x < 0x8000
  newtype int32 = x: int | -0x8000_0000 <= x < 0x8000_0000

  const JSON_CODEC: byte := 0
  const ROCKETMQ_CODEC: byte := 1
  const LANGUAGE_GO: byte := 9

  datatype Command = Command(code: int16, language: byte, version: int16, opaqueId: int32, flag: int32,
                             remark: bytes, ext: map<bytes, bytes>, body: bytes)

  /** Panic is the run-time failure of `make([]byte, n)` for a negative `n`. */
  datatype Result<+T> = Ok(value: T) | Err | Panic

  // ---- Integers ----

  /** The conversions `int16(n)` and `int32(n)`, which keep the low bits. */
  function ToInt16(n: int): (r: int16)
    ensures -0x8000 <= n < 0x8000 ==> r as int == n
  {
    ((n + 0x8000) % 0x1_0000 - 0x8000) as int16
  }

  function ToInt32(n: int): (r: int32)
    ensures -0x8000_0000 <= n < 0x8000_0000 ==> r as int == n
  {
    ((n + 0x8000_0000) % 0x1_0000_0000 - 0x8000_0000) as int32
  }

  function Put2(v: int16): (b: bytes)
    ensures |b| == 2
  {
    var u := v as int % 0x1_0000;
    [(u / 0x100) as byte, (u % 0x100) as byte]
  }

  function Get2(b: bytes): int16
    requires |b| == 2
  {
    ToInt16(b[0] as int * 0x100 + b[1] as int)
  }

  function Put4(v: int32): (b: bytes)
    ensures |b| == 4
  {
    var u := v as int % 0x1_0000_0000;
    [(u / 0x100_0000) as byte] + Low3(u)
  }

  function Low3(n: nat): (b: bytes)
    ensures |b| == 3
  {
    [(n / 0x1_0000 % 0x100) as byte, (n / 0x100 % 0x100) as byte, (n % 0x100) as byte]
  }

  function Get3(b: bytes): (n: nat)
    requires |b| == 3
    ensures n < 0x100_0000
  {
    b[0] as int * 0x1_0000 + b[1] as int * 0x100 + b[2] as int
  }

  function Get4(b: bytes): int32
    requires |b| == 4
  {
    ToInt32(b[0] as int * 0x100_0000 + Get3(b[1..]))
  }

  // ---- The binary header ----

  /** One enumeration of a map's keys; Go ranges over them in any order. */
  ghost predicate IsEnumeration(order: seq<bytes>, keys: set<bytes>) {
    && NoRepeats(order)
    && (forall k :: k in order <==> k in keys)
  }

  function PutPair(k: bytes, v: bytes): bytes { Put2(ToInt16(|k|)) + (k + (Put4(ToInt32(|v|)) + v)) }

  function PutPairs(order: seq<bytes>, m: map<bytes, bytes>): bytes
    requires forall k :: k in order ==> k in m
  {
    if order == [] then [] else PutPair(order[0], m[order[0]]) + PutPairs(order[1..], m)
  }

  function PutHeader(c: Command, ext: bytes): bytes {
    Put2(c.code) + ([LANGUAGE_GO] + (Put2(c.version) + (Put4(c.opaqueId) + (Put4(c.flag) +
    (Put4(ToInt32(|c.remark|)) + (c.remark + (Put4(ToInt32(|ext|)) + ext)))))))
  }

  /** The header bytes when the ext fields are visited in `order`. */
  function Header(c: Command, order: seq<bytes>): bytes
    requires forall k :: k in order ==> k in c.ext
  {
    PutHeader(c, PutPairs(order, c.ext))
  }

  function GetPairs(s: bytes, m: map<bytes, bytes>): (r: Result<map<bytes, bytes>>)
    decreases |s|
  {
    if s == [] then Ok(m)
    else if |s| < 2 then Err
    else
      var kLen := Get2(s[..2]) as int;
      var s1 := s[2..];
      if kLen < 0 then Panic
      else if |s1| < kLen then Err
      else
        var k, s2 := s1[..kLen], s1[kLen..];
        if |s2| < 4 then Err
        else
          var vLen := Get4(s2[..4]) as int;
          var s3 := s2[4..];
          if vLen < 0 then Panic
          else if |s3| < vLen then Err
          else GetPairs(s3[vLen..], m[k := s3[..vLen]])
  }

  /** The optional byte string behind a length: a length that is not positive means absent. */
  function GetBlob(s: bytes): (r: Result<(bytes, bytes)>) {
    if |s| < 4 then Err
    else
      var n := Get4(s[..4]) as int;
      var rest := s[4..];
      if n <= 0 then Ok(([], rest))
      else if |rest| < n then Err
      else Ok((rest[..n], rest[n..]))
  }

  function GetHeader(s: bytes): (r: Result<Command>) {
    if |s| < 13 then Err
    else
      var s1 := s[2..]; var s2 := s1[1..]; var s3 := s2[2..]; var s4 := s3[4..]; var s5 := s4[4..];
      var remark := GetBlob(s5);
      if !remark.Ok? then Err
      else
        var ext := GetBlob(remark.value.1);
        if !ext.Ok? then Err
        else
          match GetPairs(ext.value.0, map[])
          case Ok(m) =>
            Ok(Command(Get2(s[..2]), s1[0], Get2(s2[..2]), Get4(s3[..4]), Get4(s4[..4]), remark.value.0, m, []))
          case Err => Err
          case Panic => Panic
  }

  // ---- The frame ----

  /** What follows the length word: the marked header length, the header, the body. */
  function Payload(codec: byte, header: bytes, body: bytes): bytes {
    [codec] + (Low3(|header|) + (header + body))
  }

  function Frame(payload: bytes): bytes { Put4(ToInt32(|payload|)) + payload }

  /** `json` stands for the JSON header decoder, which is outside this model. */
  function Decode(data: bytes, json: bytes -> Result<Command>): (r: Result<Command>) {
    if |data| < 4 then Err
    else
      var hLen := Get3(data[1..4]);
      var rest := data[4..];
      if |rest| < hLen then Err
      else
        var h := if data[0] == JSON_CODEC then json(rest[..hLen])
                 else if data[0] == ROCKETMQ_CODEC then GetHeader(rest[..hLen])
                 else Err;
        if !h.Ok? then h
        else
          var bLen := ToInt32(ToInt32(|data|) as int - 4 - hLen) as int;
          var b := rest[hLen..];
          if bLen <= 0 then h
          else if |b| < bLen then Err
          else Ok(h.value.(body := b[..bLen]))
  }

  // ---- The source's readers and writers ----

  /** `bytes.Buffer`: writes append at the end, reads take from the front. */
  class Buffer {
    var data: bytes

    constructor (init: bytes)
      ensures data == init
    {
      data := init;
    }

    method Write(b: bytes)
      modifies this
      ensures data == old(data) + b
    {
      data := data + b;
    }

    /** `io.ReadFull` into a slice of length n. */
    method ReadFull(n: nat) returns (ok: bool, b: bytes)
      modifies this
      ensures ok == (|old(data)| >= n)
      ensures ok ==> b == old(data)[..n] && data == old(data)[n..]
    {
      ok, b := |data| >= n, [];
      if ok { b, data := data[..n], data[n..]; }
    }
  }

  lemma {:induction false} PutPairsAppend(order: seq<bytes>, k: bytes, m: map<bytes, bytes>)
    requires k in m && forall x :: x in order ==> x in m
    ensures PutPairs(order + [k], m) == PutPairs(order, m) + PutPair(k, m[k])
  {
    if order == [] {
      assert (order + [k])[1..] == [];
    } else {
      assert (order + [k])[1..] == order[1..] + [k];
      PutPairsAppend(order[1..], k, m);
    }
  }

  method WritePair(buf: Buffer, k: bytes, v: bytes)
    modifies buf
    ensures buf.data == old(buf.data) + PutPair(k, v)
  {
    buf.Write(Put2(ToInt16(|k|)));
    buf.Write(k);
    buf.Write(Put4(ToInt32(|v|)));
    buf.Write(v);
    Reassociate(old(buf.data), Put2(ToInt16(|k|)), k, Put4(ToInt32(|v|)), v);
  }

  method EncodeMaps(m: map<bytes, bytes>) returns (r: bytes)
    ensures exists order :: IsEnumeration(order, m.Keys) && r == PutPairs(order, m)
  {
    var buf := new Buffer([]);
    ghost var order: seq<bytes> := [];
    var todo := m.Keys;
    while todo != {}
      invariant todo <= m.Keys && IsEnumeration(order, m.Keys - todo)
      invariant buf.data == PutPairs(order, m)
      decreases todo
    {
      var k :| k in todo;
      WritePair(buf, k, m[k]);
      PutPairsAppend(order, k, m);
      order, todo := order + [k], todo - {k};
    }
    r := buf.data;
  }

  lemma Reassociate(a: bytes, b: bytes, c: bytes, d: bytes, e: bytes)
    ensures a + b + c + d + e == a + (b + (c + (d + e)))
    ensures a + b + c == a + (b + c)
  {
  }

  method EncodeHeader(c: Command) returns (r: bytes)
    ensures exists order :: IsEnumeration(order, c.ext.Keys) && r == Header(c, order)
  {
    var ext := EncodeMaps(c.ext);
    ghost var order :| IsEnumeration(order, c.ext.Keys) && ext == PutPairs(order, c.ext);
    r := WriteHeader(c, ext);
    assert r == Header(c, order);
  }

  method WriteHeader(c: Command, ext: bytes) returns (r: bytes)
    ensures r == PutHeader(c, ext)
  {
    var buf := new Buffer([]);
    buf.Write(Put2(c.code));
    buf.Write([LANGUAGE_GO]);
    buf.Write(Put2(c.version));
    buf.Write(Put4(c.opaqueId));
    ghost var blobs := Put4(ToInt32(|c.remark|)) + (c.remark + (Put4(ToInt32(|ext|)) + ext));
    Reassociate(Put2(c.code), [LANGUAGE_GO], Put2(c.version), Put4(c.opaqueId), Put4(c.flag) + blobs);
    ghost var fixed := buf.data;
    WriteBlobs(buf, c, ext);
    Reassociate(fixed, Put4(c.flag), blobs, [], []);
    r := buf.data;
  }

  method WriteBlobs(buf: Buffer, c: Command, ext: bytes)
    modifies buf
    ensures buf.data == old(buf.data) + Put4(c.flag)
                        + (Put4(ToInt32(|c.remark|)) + (c.remark + (Put4(ToInt32(|ext|)) + ext)))
  {
    buf.Write(Put4(c.flag));
    ghost var fixed := buf.data;
    buf.Write(Put4(ToInt32(|c.remark|)));
    if |c.remark| > 0 { buf.Write(c.remark); }
    buf.Write(Put4(ToInt32(|ext|)));
    if |ext| > 0 { buf.Write(ext); }
    Reassociate(fixed, Put4(ToInt32(|c.remark|)), c.remark, Put4(ToInt32(|ext|)), ext);
  }

  /** The header that the chosen codec writes. `marshal` stands for the JSON header encoder, which is
      outside this model; a codec byte that is neither leaves the header empty. */
  ghost predicate IsHeader(codec: byte, c: Command, marshal: Command -> Option<bytes>, header: bytes) {
    if codec == JSON_CODEC then marshal(c) == Some(header)
    else if codec == ROCKETMQ_CODEC then exists order :: IsEnumeration(order, c.ext.Keys) && header == Header(c, order)
    else header == []
  }

  method Encode(codec: byte, c: Command, marshal: Command -> Option<bytes>) returns (r: Result<bytes>)
    ensures !r.Panic? && (r.Err? <==> codec == JSON_CODEC && marshal(c).None?)
    ensures r.Ok? ==> exists header :: IsHeader(codec, c, marshal, header) && r.value == Frame(Payload(codec, header, c.body))
  {
    var header := [];
    if codec == JSON_CODEC {
      var h := marshal(c);
      if h.None? { return Err; }
      header := h.value;
    } else if codec == ROCKETMQ_CODEC {
      header := EncodeHeader(c);
    }
    assert IsHeader(codec, c, marshal, header);
    var frame := WriteFrame(codec, header, c.body);
    r := Ok(frame);
  }

  method WriteFrame(codec: byte, header: bytes, body: bytes) returns (r: bytes)
    ensures r == Frame(Payload(codec, header, body))
  {
    var buf := new Buffer([]);
    buf.Write(Put4(ToInt32(4 + |header| + |body|)));
    buf.Write(MarkProtocolType(codec, |header|));
    buf.Write(header);
    buf.Write(body);
    FrameBytes(codec, header, body);
    r := buf.data;
  }

  lemma FrameBytes(codec: byte, header: bytes, body: bytes)
    ensures Put4(ToInt32(4 + |header| + |body|)) + MarkProtocolType(codec, |header|) + header + body
         == Frame(Payload(codec, header, body))
  {
    var word := Put4(ToInt32(4 + |header| + |body|));
    Reassociate(word, [codec], Low3(|header|), header, body);
    Reassociate(word, [codec], Low3(|header|), [], []);
  }

  /** `markProtocolType` of the header length: the codec in the top byte, the length below. */
  function MarkProtocolType(codec: byte, n: nat): bytes { [codec] + Low3(n) }

  method DecodePairs(data: bytes) returns (r: Result<map<bytes, bytes>>)
    ensures r == GetPairs(data, map[])
  {
    var buf := new Buffer(data);
    var m: map<bytes, bytes> := map[];
    while |buf.data| > 0
      invariant GetPairs(buf.data, m) == GetPairs(data, map[])
      decreases |buf.data|
    {
      var ok, kWord := buf.ReadFull(2);
      if !ok { return Err; }
      var kLen := Get2(kWord) as int;
      if kLen < 0 { return Panic; }
      var k;
      ok, k := buf.ReadFull(kLen);
      if !ok { return Err; }
      var vWord;
      ok, vWord := buf.ReadFull(4);
      if !ok { return Err; }
      var vLen := Get4(vWord) as int;
      if vLen < 0 { return Panic; }
      var v;
      ok, v := buf.ReadFull(vLen);
      if !ok { return Err; }
      m := m[k := v];
    }
    r := Ok(m);
  }

  method ReadBlob(buf: Buffer) returns (ok: bool, b: bytes)
    modifies buf
    ensures var g := GetBlob(old(buf.data)); ok == g.Ok? && (ok ==> g.value == (b, buf.data))
  {
    var word;
    ok, word := buf.ReadFull(4);
    if !ok { return false, []; }
    var n := Get4(word) as int;
    b := [];
    if n > 0 { ok, b := buf.ReadFull(n); }
  }

  method DecodeHeader(data: bytes) returns (r: Result<Command>)
    ensures r == GetHeader(data)
  {
    var buf := new Buffer(data);
    var ok, code := buf.ReadFull(2);
    if !ok { return Err; }
    var language;
    ok, language := buf.ReadFull(1);
    if !ok { return Err; }
    var version;
    ok, version := buf.ReadFull(2);
    if !ok { return Err; }
    var id;
    ok, id := buf.ReadFull(4);
    if !ok { return Err; }
    var flag;
    ok, flag := buf.ReadFull(4);
    if !ok { return Err; }
    var remark;
    ok, remark := ReadBlob(buf);
    if !ok { return Err; }
    var extData;
    ok, extData := ReadBlob(buf);
    if !ok { return Err; }
    var m := DecodePairs(extData);
    match m
    case Err => return Err;
    case Panic => return Panic;
    case Ok(ext) =>
      return Ok(Command(Get2(code), language[0], Get2(version), Get4(id), Get4(flag), remark, ext, []));
  }

  method DecodeFrame(data: bytes, json: bytes -> Result<Command>) returns (r: Result<Command>)
    ensures r == Decode(data, json)
  {
    var buf := new Buffer(data);
    var ok, word := buf.ReadFull(4);
    if !ok { return Err; }
    assert data[..4][1..] == data[1..4];
    var hLen := Get3(word[1..]);
    var header;
    ok, header := buf.ReadFull(hLen);
    if !ok { return Err; }
    if word[0] == JSON_CODEC {
      r := json(header);
    } else if word[0] == ROCKETMQ_CODEC {
      r := DecodeHeader(header);
    } else {
      r := Err;
    }
    if !r.Ok? { return; }
    var bLen := ToInt32(ToInt32(|data|) as int - 4 - hLen) as int;
    if bLen > 0 {
      var body;
      ok, body := buf.ReadFull(bLen);
      if !ok { return Err; }
      r := Ok(r.value.(body := body));
    }
  }
}
