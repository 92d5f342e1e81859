/** Fastjson documents as trees, and the tree-level meaning of normalisation. */
module FastJsonTree {
  import opened Bytes
  import opened FastJson
  import opened FastJsonLaws

  /** A JSON value with its layout. Fastjson writes object keys bare when they are not strings. */
  datatype Value =
    | Str(body: bytes)
    | Num(tok: bytes)
    | Kw(tok: bytes)
    | Node(kind: Kind, ws: bytes, items: Items)

  datatype Items = Done | Item(pre: bytes, key: Key, preV: bytes, v: Value, post: bytes, rest: Items)

  /** `mid` is the white space between the key and its colon; array elements have no key. */
  datatype Key =
    | NoKey
    | KStr(body: bytes, mid: bytes)
    | KNum(tok: bytes, mid: bytes)
    | KKw(tok: bytes, mid: bytes)
    | KNode(v: Value, mid: bytes)

  datatype Document = Document(pre: bytes, v: Value, post: bytes)

  function Print(v: Value): bytes {
    match v
    case Str(body) => Quoted(body)
    case Num(tok) => tok
    case Kw(tok) => tok
    case Node(kind, ws, items) => ([Open(kind)] + ws) + (PrintItems(items) + [Close(kind)])
  }

  function PrintItems(items: Items): bytes
    decreases items, 0
  {
    match items
    case Done => []
    case Item(pre, key, preV, v, post, rest) =>
      pre + (PrintKey(key) + (preV + (Print(v) + (post + PrintTail(rest)))))
  }

  function PrintTail(items: Items): bytes
    decreases items, 1
  { if items.Done? then [] else [COMMA] + PrintItems(items) }

  function PrintKey(key: Key): bytes {
    match key
    case NoKey => []
    case KStr(body, mid) => Quoted(body) + (mid + [COLON])
    case KNum(tok, mid) => tok + (mid + [COLON])
    case KKw(tok, mid) => tok + (mid + [COLON])
    case KNode(v, mid) => Print(v) + (mid + [COLON])
  }

  function PrintDocument(d: Document): bytes { d.pre + (Print(d.v) + d.post) }

  predicate Spaces(s: bytes) { forall i :: 0 <= i < |s| ==> IsSpace(s[i]) }

  predicate Token(k: Class, s: bytes) {
    s != [] && BareStart(k, s[0]) && forall i :: 0 <= i < |s| ==> InClass(k, s[i])
  }

  predicate Wf(v: Value) {
    match v
    case Str(body) => LiteralBody(body)
    case Num(tok) => Token(Number, tok)
    case Kw(tok) => Token(Keyword, tok)
    case Node(kind, ws, items) => Spaces(ws) && WfItems(kind, items)
  }

  predicate WfItems(kind: Kind, items: Items)
    decreases items
  {
    match items
    case Done => true
    case Item(pre, key, preV, v, post, rest) =>
      Spaces(pre) && WfKey(kind, key) && Spaces(preV) && Wf(v) && Spaces(post) && WfItems(kind, rest)
  }

  predicate WfKey(kind: Kind, key: Key)
    decreases key
  {
    match key
    case NoKey => kind.Array?
    case KStr(body, mid) => kind.Object? && LiteralBody(body) && Spaces(mid)
    case KNum(tok, mid) => kind.Object? && Token(Number, tok) && Spaces(mid)
    case KKw(tok, mid) => kind.Object? && Token(Keyword, tok) && Spaces(mid)
    case KNode(v, mid) => kind.Object? && v.Node? && Wf(v) && Spaces(mid)
  }

  predicate WfDocument(d: Document) { Spaces(d.pre) && Wf(d.v) && Spaces(d.post) }

  /** The tree with its bare keys quoted: a number key becomes the string of its digits, a
      composite key the string of its raw text. Keyword keys are quoted only if `all`. */
  function Norm(v: Value, all: bool): Value {
    if v.Node? then v.(items := NormItems(v.items, all)) else v
  }

  function NormItems(items: Items, all: bool): (r: Items)
    ensures r.Item? == items.Item?
  {
    match items
    case Done => Done
    case Item(pre, key, preV, v, post, rest) =>
      Item(pre, NormKey(key, all), preV, Norm(v, all), post, NormItems(rest, all))
  }

  function NormKey(key: Key, all: bool): Key {
    match key
    case KNum(tok, mid) => KStr(tok, mid)
    case KNode(v, mid) => KStr(Escape(Print(v)), mid)
    case KKw(tok, mid) => if all then KStr(tok, mid) else key
    case _ => key
  }

  function NormDocument(d: Document, all: bool): Document { d.(v := Norm(d.v, all)) }

  // ---- Capturing a composite key takes exactly the key ----

  function CapEnd(k: Kind, text: bytes, cap: Cap): Option<Cap> {
    if text == [] then Some(cap)
    else if Closes(k, cap, text[0]) then None
    else CapEnd(k, text[1..], CapStep(k, cap, text[0]))
  }

  lemma {:induction false} CapEndConcat(k: Kind, a: bytes, b: bytes, cap: Cap)
    requires CapEnd(k, a, cap).Some?
    ensures CapEnd(k, a + b, cap) == CapEnd(k, b, CapEnd(k, a, cap).value)
  {
    if a == [] {
      assert a + b == b;
    } else {
      assert (a + b)[1..] == a[1..] + b;
      CapEndConcat(k, a[1..], b, CapStep(k, cap, a[0]));
    }
  }

  lemma {:induction false} CaptureLenConcat(k: Kind, a: bytes, b: bytes, cap: Cap)
    requires CapEnd(k, a, cap).Some?
    ensures CaptureLen(k, a + b, cap) == Plus(|a|, CaptureLen(k, b, CapEnd(k, a, cap).value))
  {
    if a == [] {
      assert a + b == b;
    } else {
      assert (a + b)[1..] == a[1..] + b;
      CaptureLenConcat(k, a[1..], b, CapStep(k, cap, a[0]));
    }
  }

  predicate Plain(s: bytes) {
    forall i :: 0 <= i < |s| ==> s[i] !in {QUOTE, LBRACE, RBRACE, LBRACKET, RBRACKET}
  }

  lemma {:induction false} PlainSkipped(k: Kind, s: bytes, cap: Cap)
    requires Plain(s) && !cap.inStr
    ensures CapEnd(k, s, cap) == Some(cap)
  {
    if s != [] { PlainSkipped(k, s[1..], cap); }
  }

  lemma {:induction false} LiteralSkipped(k: Kind, body: bytes, cap: Cap)
    requires LiteralBody(body) && cap.inStr && !cap.esc
    ensures CapEnd(k, body + [QUOTE], cap) == Some(cap.(inStr := false))
    decreases |body|
  {
    var text := body + [QUOTE];
    if body == [] {
      assert text[1..] == [];
    } else {
      var n := if body[0] == BACKSLASH then 2 else 1;
      LiteralSkipped(k, body[n..], cap);
      assert text[1..][n - 1..] == body[n..] + [QUOTE];
      assert n == 1 ==> text[1..] == body[1..] + [QUOTE];
    }
  }

  lemma QuotedSkipped(k: Kind, body: bytes, cap: Cap)
    requires LiteralBody(body) && !cap.inStr && !cap.esc
    ensures CapEnd(k, Quoted(body), cap) == Some(cap)
  {
    LiteralSkipped(k, body, cap.(inStr := true));
    assert Quoted(body)[1..] == body + [QUOTE];
  }

  predicate Inside(cap: Cap) { cap.depth >= 1 && !cap.inStr && !cap.esc }

  lemma {:induction false} ValueSkipped(k: Kind, v: Value, cap: Cap)
    requires Wf(v) && Inside(cap)
    ensures CapEnd(k, Print(v), cap) == Some(cap)
    decreases v
  {
    match v
    case Str(body) => QuotedSkipped(k, body, cap);
    case Num(tok) => PlainSkipped(k, tok, cap);
    case Kw(tok) => PlainSkipped(k, tok, cap);
    case Node(kind, ws, items) =>
      var cap' := CapStep(k, cap, Open(kind));
      NodeHead(k, kind, ws, cap);
      ItemsSkipped(k, kind, items, cap');
      CapEndConcat(k, PrintItems(items), [Close(kind)], cap');
      CapEndConcat(k, [Open(kind)] + ws, PrintItems(items) + [Close(kind)], cap);
      assert [Close(kind)][1..] == [];
  }

  lemma NodeHead(k: Kind, kind: Kind, ws: bytes, cap: Cap)
    requires Spaces(ws) && cap.depth >= 0 && !cap.inStr && !cap.esc
    ensures CapEnd(k, [Open(kind)] + ws, cap) == Some(CapStep(k, cap, Open(kind)))
  {
    PlainSkipped(k, ws, CapStep(k, cap, Open(kind)));
    assert ([Open(kind)] + ws)[1..] == ws;
  }

  lemma {:induction false} ItemsSkipped(k: Kind, kind: Kind, items: Items, cap: Cap)
    requires WfItems(kind, items) && Inside(cap)
    ensures CapEnd(k, PrintItems(items), cap) == Some(cap)
    decreases items
  {
    if items.Item? {
      var tail := PrintTail(items.rest);
      if items.rest.Item? {
        ItemsSkipped(k, kind, items.rest, cap);
        assert tail[1..] == PrintItems(items.rest);
      }
      KeySkipped(k, kind, items.key, cap);
      ValueSkipped(k, items.v, cap);
      PlainSkipped(k, items.pre, cap);
      PlainSkipped(k, items.preV, cap);
      PlainSkipped(k, items.post, cap);
      CapEndConcat(k, items.post, tail, cap);
      CapEndConcat(k, Print(items.v), items.post + tail, cap);
      CapEndConcat(k, items.preV, Print(items.v) + (items.post + tail), cap);
      var mid := items.preV + (Print(items.v) + (items.post + tail));
      CapEndConcat(k, PrintKey(items.key), mid, cap);
      CapEndConcat(k, items.pre, PrintKey(items.key) + mid, cap);
    }
  }

  lemma {:induction false} KeySkipped(k: Kind, kind: Kind, key: Key, cap: Cap)
    requires WfKey(kind, key) && Inside(cap)
    ensures CapEnd(k, PrintKey(key), cap) == Some(cap)
    decreases key
  {
    if key != NoKey {
      var text := match key
        case KStr(body, _) => Quoted(body)
        case KNum(tok, _) => tok
        case KKw(tok, _) => tok
        case KNode(v, _) => Print(v);
      match key {
        case KStr(body, _) => QuotedSkipped(k, body, cap);
        case KNode(v, _) => ValueSkipped(k, v, cap);
        case _ => PlainSkipped(k, text, cap);
      }
      PlainSkipped(k, key.mid + [COLON], cap);
      CapEndConcat(k, text, key.mid + [COLON], cap);
    }
  }

  lemma NodeCaptured(v: Value, rest: bytes)
    requires Wf(v) && v.Node?
    ensures CaptureLen(v.kind, Print(v) + rest, OUTSIDE) == Some(|Print(v)|)
  {
    var k, head, body := v.kind, [Open(v.kind)] + v.ws, PrintItems(v.items);
    var inner := Cap(1, false, false);
    NodeHead(k, k, v.ws, OUTSIDE);
    ItemsSkipped(k, k, v.items, inner);
    CapEndConcat(k, head, body, OUTSIDE);
    CaptureLenConcat(k, head + body, [Close(k)] + rest, OUTSIDE);
    assert Print(v) + rest == (head + body) + ([Close(k)] + rest);
  }

  // ---- Normalising text piece by piece ----

  predicate Delimiter(c: byte) { !InClass(Number, c) && !InClass(Keyword, c) }

  /** From mode `m`, `text` is rewritten to `out` and leaves mode `m'`; unless `free`, only if
      what follows cannot extend a bare token. */
  ghost predicate Goes(text: bytes, m: Mode, out: bytes, m': Mode, free: bool) {
    forall rest: bytes {:trigger Before(rest)} :: Before(rest) && (free || rest == [] || Delimiter(rest[0])) ==>
      Rewrite(text + rest, m) == out + Rewrite(rest, m')
  }

  /** Names the continuation at which `Goes` is used. */
  ghost predicate Before(rest: bytes) { true }

  lemma CopyGoes(text: bytes, m: Mode)
    requires CopyEnd(text, m).Some?
    ensures Goes(text, m, text, CopyEnd(text, m).value, true)
  {
    forall rest: bytes ensures Rewrite(text + rest, m) == text + Rewrite(rest, CopyEnd(text, m).value) {
      CopyText(text, rest, m);
    }
  }

  lemma Compose(a: bytes, x: bytes, p: bool, b: bytes, y: bytes, q: bool, m: Mode, m1: Mode, m2: Mode)
    requires Goes(a, m, x, m1, p) && Goes(b, m1, y, m2, q)
    requires p || b == [] || Delimiter(b[0])
    ensures Goes(a + b, m, x + y, m2, q && (p || b != []))
  {
    forall rest: bytes | (q && (p || b != [])) || rest == [] || Delimiter(rest[0])
      ensures Rewrite((a + b) + rest, m) == (x + y) + Rewrite(rest, m2)
    {
      ComposeAt(a, x, p, b, y, q, m, m1, m2, rest);
    }
  }

  lemma ComposeAt(a: bytes, x: bytes, p: bool, b: bytes, y: bytes, q: bool, m: Mode, m1: Mode, m2: Mode, rest: bytes)
    requires Goes(a, m, x, m1, p) && Goes(b, m1, y, m2, q)
    requires p || b == [] || Delimiter(b[0])
    requires (q && (p || b != [])) || rest == [] || Delimiter(rest[0])
    ensures Rewrite((a + b) + rest, m) == (x + y) + Rewrite(rest, m2)
  {
    assert b != [] ==> (b + rest)[0] == b[0];
    assert b == [] ==> b + rest == rest;
    GoesAt(b, m1, y, m2, q, rest);
    GoesAt(a, m, x, m1, p, b + rest);
    Glue(a, b, rest, x, y, Rewrite(rest, m2));
  }

  lemma GoesAt(text: bytes, m: Mode, out: bytes, m': Mode, free: bool, rest: bytes)
    requires Goes(text, m, out, m', free) && (free || rest == [] || Delimiter(rest[0]))
    ensures Rewrite(text + rest, m) == out + Rewrite(rest, m')
  {
    assert Before(rest);
  }

  lemma Glue(a: bytes, b: bytes, c: bytes, x: bytes, y: bytes, z: bytes)
    ensures (a + b) + c == a + (b + c) && (x + y) + z == x + (y + z)
  {
  }

  lemma Weaken(text: bytes, m: Mode, out: bytes, m': Mode)
    requires Goes(text, m, out, m', true)
    ensures Goes(text, m, out, m', false)
  {
  }

  lemma BareGoes(k: Class, tok: bytes, m: Mode)
    requires Token(k, tok) && !m.inString && (k.Keyword? || !m.st.ExpectKey?)
    ensures Goes(tok, m, tok, m.(st := AfterValue), false)
  {
    forall rest: bytes | rest == [] || Delimiter(rest[0])
      ensures Rewrite(tok + rest, m) == tok + Rewrite(rest, m.(st := AfterValue))
    {
      BareCopied(k, tok, rest, m);
    }
  }

  lemma NumberKeyGoes(tok: bytes, m: Mode)
    requires Token(Number, tok) && !m.inString && m.st.ExpectKey?
    ensures Goes(tok, m, Quoted(tok), m.(st := ExpectColon), false)
  {
    forall rest: bytes | rest == [] || Delimiter(rest[0])
      ensures Rewrite(tok + rest, m) == Quoted(tok) + Rewrite(rest, m.(st := ExpectColon))
    {
      RunLenConcat(Number, tok, rest);
      assert (tok + rest)[..|tok|] == tok && (tok + rest)[|tok|..] == rest;
      TurnIs(tok + rest, m, Turn(|tok|, Quoted(tok), m.(st := ExpectColon)));
    }
  }

  lemma NodeKeyGoes(v: Value, m: Mode)
    requires Wf(v) && v.Node? && !m.inString && m.st.ExpectKey?
    ensures Goes(Print(v), m, Quoted(Escape(Print(v))), m.(st := ExpectColon), true)
  {
    var tok := Print(v);
    forall rest: bytes
      ensures Rewrite(tok + rest, m) == Quoted(Escape(tok)) + Rewrite(rest, m.(st := ExpectColon))
    {
      NodeCaptured(v, rest);
      assert (tok + rest)[..|tok|] == tok && (tok + rest)[|tok|..] == rest;
      assert (tok + rest)[0] == Open(v.kind);
      TurnIs(tok + rest, m, Turn(|tok|, Quoted(Escape(tok)), m.(st := ExpectColon)));
    }
  }

  lemma {:induction false} SpacesCopy(s: bytes, m: Mode)
    requires Spaces(s) && !m.inString
    ensures CopyEnd(s, m) == Some(m)
  {
    if s != [] { SpacesCopy(s[1..], m); }
  }

  lemma SpacesGo(s: bytes, m: Mode)
    requires Spaces(s) && !m.inString
    ensures Goes(s, m, s, m, true)
  {
    SpacesCopy(s, m);
    CopyGoes(s, m);
  }

  lemma ByteGoes(c: byte, m: Mode)
    requires CopiesByte(c, m)
    ensures Goes([c], m, [c], ByteStep(c, m), true)
  {
    assert [c][1..] == [];
    CopyGoes([c], m);
  }

  lemma KeyGoes(kind: Kind, key: Key, m: Mode)
    requires WfKey(kind, key) && key != NoKey && Ready(m) && m.st.ExpectKey?
    ensures Goes(PrintKey(key), m, PrintKey(NormKey(key, false)), m.(st := ExpectValue), true)
  {
    var mColon := m.(st := ExpectColon);
    var colon := key.mid + [COLON];
    match key {
      case KStr(body, mid) =>
        QuotedCopies(body, m);
        CopyGoes(Quoted(body), m);
        ColonGoes(mid, mColon);
        Compose(Quoted(body), Quoted(body), true, colon, colon, true, m, mColon, m.(st := ExpectValue));
      case KNum(tok, mid) =>
        NumberKeyGoes(tok, m);
        ColonGoes(mid, mColon);
        Compose(tok, Quoted(tok), false, colon, colon, true, m, mColon, m.(st := ExpectValue));
      case KKw(tok, mid) =>
        BareGoes(Keyword, tok, m);
        ColonGoes(mid, m.(st := AfterValue));
        Compose(tok, tok, false, colon, colon, true, m, m.(st := AfterValue), m.(st := ExpectValue));
      case KNode(v, mid) =>
        NodeKeyGoes(v, m);
        ColonGoes(mid, mColon);
        Compose(Print(v), Quoted(Escape(Print(v))), true, colon, colon, true, m, mColon, m.(st := ExpectValue));
    }
  }

  lemma ColonGoes(mid: bytes, m: Mode)
    requires Spaces(mid) && Ready(m)
    ensures Goes(mid + [COLON], m, mid + [COLON], m.(st := ExpectValue), true)
  {
    SpacesGo(mid, m);
    ByteGoes(COLON, m);
    Compose(mid, mid, true, [COLON], [COLON], true, m, m, m.(st := ExpectValue));
  }

  predicate IsBare(v: Value) { v.Num? || v.Kw? }

  lemma {:induction false} ValueGoes(v: Value, m: Mode)
    requires Wf(v) && Ready(m) && m.st.ExpectValue?
    ensures Goes(Print(v), m, Print(Norm(v, false)), m.(st := AfterValue), !IsBare(v))
    decreases v
  {
    match v
    case Str(body) =>
      QuotedCopies(body, m);
      CopyGoes(Quoted(body), m);
    case Num(tok) => BareGoes(Number, tok, m);
    case Kw(tok) => BareGoes(Keyword, tok, m);
    case Node(kind, ws, items) => NodeGoes(kind, ws, items, m);
  }

  function StartState(kind: Kind): PState { if kind.Object? then ExpectKey else ExpectValue }

  lemma {:induction false} NodeGoes(kind: Kind, ws: bytes, items: Items, m: Mode)
    requires Spaces(ws) && WfItems(kind, items) && Ready(m) && m.st.ExpectValue?
    ensures var v := Node(kind, ws, items);
            Goes(Print(v), m, Print(Norm(v, false)), m.(st := AfterValue), true)
    decreases items, 1
  {
    var m1 := m.(stack := m.stack + [kind], st := StartState(kind));
    var m2 := if items.Done? then m1 else m1.(st := AfterValue);
    var body, out := PrintItems(items), PrintItems(NormItems(items, false));
    HeadGoes(kind, ws, m);
    if items.Done? {
      SpacesGo([], m1);
    } else {
      ItemsGo(kind, items, m1);
    }
    CloseGoes(kind, m, m2);
    Compose(body, out, items.Done?, [Close(kind)], [Close(kind)], true, m1, m2, m.(st := AfterValue));
    Compose([Open(kind)] + ws, [Open(kind)] + ws, true, body + [Close(kind)], out + [Close(kind)], true,
            m, m1, m.(st := AfterValue));
  }

  lemma HeadGoes(kind: Kind, ws: bytes, m: Mode)
    requires Spaces(ws) && Ready(m) && m.st.ExpectValue?
    ensures Goes([Open(kind)] + ws, m, [Open(kind)] + ws, m.(stack := m.stack + [kind], st := StartState(kind)), true)
  {
    var m1 := m.(stack := m.stack + [kind], st := StartState(kind));
    ByteGoes(Open(kind), m);
    SpacesGo(ws, m1);
    Compose([Open(kind)], [Open(kind)], true, ws, ws, true, m, m1, m1);
  }

  lemma CloseGoes(kind: Kind, m: Mode, m2: Mode)
    requires Ready(m) && m2 == m.(stack := m.stack + [kind], st := m2.st)
    ensures Goes([Close(kind)], m2, [Close(kind)], m.(st := AfterValue), true)
  {
    assert m2.stack[..|m2.stack| - 1] == m.stack;
    ByteGoes(Close(kind), m2);
  }

  lemma {:induction false} ItemsGo(kind: Kind, items: Items, m: Mode)
    requires WfItems(kind, items) && items.Item? && Ready(m) && m.st == StartState(kind)
    requires m.stack != [] && m.stack[|m.stack| - 1] == kind
    ensures Goes(PrintItems(items), m, PrintItems(NormItems(items, false)), m.(st := AfterValue), false)
    decreases items, 0
  {
    var mV, mA := m.(st := ExpectValue), m.(st := AfterValue);
    var out := NormItems(items, false);
    var tail, tail' := PrintTail(items.rest), PrintTail(out.rest);
    if items.rest.Item? {
      ByteGoes(COMMA, mA);
      ItemsGo(kind, items.rest, m);
      Compose([COMMA], [COMMA], true, PrintItems(items.rest), PrintItems(out.rest), false, mA, m, mA);
    } else {
      SpacesGo([], mA);
      Weaken([], mA, [], mA);
    }
    ValueGoes(items.v, mV);
    TailGoes(items.v, items.post, tail, tail', mV);
    SpacesGo(items.preV, mV);
    var rest, rest' := Print(items.v) + (items.post + tail), Print(out.v) + (items.post + tail');
    Compose(items.preV, items.preV, true, rest, rest', false, mV, mV, mA);
    SpacesGo(items.pre, m);
    if kind.Object? {
      KeyGoes(kind, items.key, m);
    } else {
      SpacesGo([], m);
    }
    Compose(PrintKey(items.key), PrintKey(out.key), true, items.preV + rest, items.preV + rest', false, m, mV, mA);
    Compose(items.pre, items.pre, true, PrintKey(items.key) + (items.preV + rest),
            PrintKey(out.key) + (items.preV + rest'), false, m, m, mA);
  }

  lemma TailGoes(v: Value, post: bytes, tail: bytes, tail': bytes, m: Mode)
    requires Ready(m) && Spaces(post) && (tail == [] || Delimiter(tail[0]))
    requires Goes(Print(v), m, Print(Norm(v, false)), m.(st := AfterValue), !IsBare(v))
    requires Goes(tail, m.(st := AfterValue), tail', m.(st := AfterValue), false)
    ensures Goes(Print(v) + (post + tail), m, Print(Norm(v, false)) + (post + tail'), m.(st := AfterValue), false)
  {
    var mA := m.(st := AfterValue);
    SpacesGo(post, mA);
    Compose(post, post, true, tail, tail', false, mA, mA, mA);
    Compose(Print(v), Print(Norm(v, false)), !IsBare(v), post + tail, post + tail', false, m, mA, mA);
  }

  // ---- The theorems ----

  /** Normalising the text of any fastjson tree gives the text of the tree with its number and
      composite keys quoted and its keyword keys left bare. */
  lemma NormalizeIsTreeNorm(d: Document)
    requires WfDocument(d)
    ensures Normalize(PrintDocument(d)) == PrintDocument(NormDocument(d, false))
  {
    var m := INITIAL;
    var mA := m.(st := AfterValue);
    var out := NormDocument(d, false);
    SpacesGo(d.pre, m);
    ValueGoes(d.v, m);
    SpacesGo(d.post, mA);
    Compose(Print(d.v), Print(out.v), !IsBare(d.v), d.post, d.post, true, m, mA, mA);
    var free := true && (!IsBare(d.v) || d.post != []);
    Compose(d.pre, d.pre, true, Print(d.v) + d.post, Print(out.v) + d.post, free, m, m, mA);
    assert Before([]) && PrintDocument(d) + [] == PrintDocument(d);
    assert Rewrite([], mA) == [];
  }

  /** Every object key is a string, as section 4 of RFC 8259 demands. */
  predicate StringKeys(v: Value) { v.Node? ==> StringKeysIn(v.items) }

  predicate StringKeysIn(items: Items) {
    items.Item? ==> (items.key.NoKey? || items.key.KStr?) && StringKeys(items.v) && StringKeysIn(items.rest)
  }

  /** The number of keyword keys that are not inside a composite key. */
  function KeywordKeys(v: Value): nat { if v.Node? then KeywordKeysIn(v.items) else 0 }

  function KeywordKeysIn(items: Items): nat {
    if items.Done? then 0
    else (if items.key.KKw? then 1 else 0) + KeywordKeys(items.v) + KeywordKeysIn(items.rest)
  }

  /** The quoted tree is again well formed, and it is standard JSON exactly when the code quoted
      every key it should have. */
  lemma {:induction false} NormIsWellFormed(v: Value, all: bool)
    requires Wf(v)
    ensures Wf(Norm(v, all))
    ensures StringKeys(Norm(v, all)) <==> all || KeywordKeys(v) == 0
    decreases v
  {
    if v.Node? { NormItemsWellFormed(v.kind, v.items, all); }
  }

  lemma {:induction false} NormItemsWellFormed(kind: Kind, items: Items, all: bool)
    requires WfItems(kind, items)
    ensures WfItems(kind, NormItems(items, all))
    ensures StringKeysIn(NormItems(items, all)) <==> all || KeywordKeysIn(items) == 0
    decreases items
  {
    if items.Item? {
      NormIsWellFormed(items.v, all);
      NormItemsWellFormed(kind, items.rest, all);
      match items.key
      case KNum(tok, _) => NumberIsLiteral(tok);
      case KKw(tok, _) => KeywordIsLiteral(tok);
      case KNode(v, _) => EscapeShape(Print(v));
      case _ =>
    }
  }

  lemma {:induction false} KeywordIsLiteral(s: bytes)
    requires forall i :: 0 <= i < |s| ==> InClass(Keyword, s[i])
    ensures LiteralBody(s)
  {
    if s != [] { KeywordIsLiteral(s[1..]); }
  }

  lemma {:induction false} NormFixesStrings(v: Value)
    requires StringKeys(v)
    ensures Norm(v, false) == v
    decreases v
  {
    if v.Node? { NormFixesStringItems(v.items); }
  }

  lemma {:induction false} NormFixesStringItems(items: Items)
    requires StringKeysIn(items)
    ensures NormItems(items, false) == items
    decreases items
  {
    if items.Item? {
      NormFixesStrings(items.v);
      NormFixesStringItems(items.rest);
    }
  }

  /** Text that is already standard JSON comes back unchanged. */
  lemma StandardUnchanged(d: Document)
    requires WfDocument(d) && StringKeys(d.v)
    ensures Normalize(PrintDocument(d)) == PrintDocument(d)
  {
    NormalizeIsTreeNorm(d);
    NormFixesStrings(d.v);
  }

  /** Each keyword key that stays bare costs exactly the two quotes it did not get. */
  lemma {:induction false} MissingQuotes(v: Value)
    ensures |Print(Norm(v, true))| == |Print(Norm(v, false))| + 2 * KeywordKeys(v)
    decreases v
  {
    if v.Node? { MissingQuotesIn(v.items); }
  }

  lemma {:induction false} MissingQuotesIn(items: Items)
    ensures |PrintItems(NormItems(items, true))| == |PrintItems(NormItems(items, false))| + 2 * KeywordKeysIn(items)
    decreases items
  {
    if items.Item? {
      MissingQuotes(items.v);
      MissingQuotesIn(items.rest);
      MissingQuotesKey(items.key);
      var a, b := NormItems(items, true), NormItems(items, false);
      assert |PrintTail(a.rest)| == |PrintTail(b.rest)| + 2 * KeywordKeysIn(items.rest);
      assert forall it: Items {:trigger PrintTail(it.rest)} :: it.Item? ==>
        |PrintItems(it)| == |it.pre| + |PrintKey(it.key)| + |it.preV| + |Print(it.v)| + |it.post| + |PrintTail(it.rest)|;
    }
  }

  lemma MissingQuotesKey(key: Key)
    ensures |PrintKey(NormKey(key, true))| == |PrintKey(NormKey(key, false))| + if key.KKw? then 2 else 0
  {
  }

  /** Quoting every bare key is what the code promises; it does so if and only if no bare key is
      a keyword, because `true`, `false` and `null` are emitted unquoted in any position. */
  lemma AllKeysQuotedIff(d: Document)
    requires WfDocument(d)
    ensures Normalize(PrintDocument(d)) == PrintDocument(NormDocument(d, true)) <==> KeywordKeys(d.v) == 0
  {
    NormalizeIsTreeNorm(d);
    MissingQuotes(d.v);
    if KeywordKeys(d.v) == 0 { NormIgnoresAll(d.v); }
  }

  lemma {:induction false} NormIgnoresAll(v: Value)
    requires KeywordKeys(v) == 0
    ensures Norm(v, true) == Norm(v, false)
    decreases v
  {
    if v.Node? { NormItemsIgnoresAll(v.items); }
  }

  lemma {:induction false} NormItemsIgnoresAll(items: Items)
    requires KeywordKeysIn(items) == 0
    ensures NormItems(items, true) == NormItems(items, false)
    decreases items
  {
    if items.Item? {
      NormIgnoresAll(items.v);
      NormItemsIgnoresAll(items.rest);
    }
  }

  /** {true:0} keeps its bare key. */
  lemma KeywordKeyStaysBare()
    ensures var text := [LBRACE, 116, 114, 117, 101, COLON, 48, RBRACE];
            Normalize(text) == text
  {
    var d := Document([], Node(Object, [], TrueItems()), []);
    TruePrinted();
    NormalizeIsTreeNorm(d);
    assert PrintDocument(d) == Print(d.v);
    assert NormDocument(d, false) == d;
  }

  /** true:0 */
  function TrueItems(): Items { Item([], KKw([116, 114, 117, 101], []), [], Num([48]), [], Done) }

  lemma TruePrinted()
    ensures Print(Node(Object, [], TrueItems())) == [LBRACE, 116, 114, 117, 101, COLON, 48, RBRACE]
  {
    TrueItemsPrinted();
    assert [Open(Object)] + [] == [LBRACE];
  }

  lemma TrueItemsPrinted()
    ensures PrintItems(TrueItems()) == [116, 114, 117, 101, COLON, 48]
  {
    assert PrintKey(TrueItems().key) == [116, 114, 117, 101, COLON];
    assert Print(TrueItems().v) == [48] && PrintTail(Done) == [];
  }

  /** Composite keys that become the same string had the same text. */
  lemma CompositeKeysStayDistinct(k1: Key, k2: Key)
    requires k1.KNode? && k2.KNode? && NormKey(k1, false) == NormKey(k2, false)
    ensures Print(k1.v) == Print(k2.v)
  {
    UnescapeEscape(Print(k1.v));
    UnescapeEscape(Print(k2.v));
  }

  /** The text of a key after normalising, without the space before its colon. */
  function KeyText(key: Key): bytes {
    match key
    case NoKey => []
    case KStr(body, _) => Quoted(body)
    case KNum(tok, _) => Quoted(tok)
    case KKw(tok, _) => tok
    case KNode(v, _) => Quoted(Escape(Print(v)))
  }

  lemma KeyTextIs(key: Key)
    requires key.KStr? || key.KNum? || key.KKw? || key.KNode?
    ensures PrintKey(NormKey(key, false)) == KeyText(key) + (key.mid + [COLON])
  {
  }

  /** Two keys of an object that normalising cannot tell apart: a number or a composite key and the
      string that spells it, or two keys of one sort with the same text. */
  predicate Coincide(k1: Key, k2: Key) {
    match (k1, k2)
    case (KStr(a, _), KStr(b, _)) => a == b
    case (KNum(a, _), KNum(b, _)) => a == b
    case (KKw(a, _), KKw(b, _)) => a == b
    case (KNode(v, _), KNode(w, _)) => Print(v) == Print(w)
    case (KStr(a, _), KNum(b, _)) => a == b
    case (KNum(a, _), KStr(b, _)) => a == b
    case (KStr(a, _), KNode(v, _)) => Unescape(a) == Some(Print(v))
    case (KNode(v, _), KStr(a, _)) => Unescape(a) == Some(Print(v))
    case _ => false
  }

  lemma KeysCoincideIff(k1: Key, k2: Key)
    requires WfKey(Object, k1) && WfKey(Object, k2)
    ensures KeyText(k1) == KeyText(k2) <==> Coincide(k1, k2)
  {
    KeyBodyIs(k1);
    KeyBodyIs(k2);
    if k1.KNode? { UnescapeEscape(Print(k1.v)); }
    if k2.KNode? { UnescapeEscape(Print(k2.v)); }
    if k1.KStr? && Unescape(k1.body).Some? { EscapeUnescape(k1.body); }
    if k2.KStr? && Unescape(k2.body).Some? { EscapeUnescape(k2.body); }
  }

  /** Where a key's text begins, and what stands between its quotes. */
  lemma KeyBodyIs(key: Key)
    requires WfKey(Object, key)
    ensures KeyText(key) != []
    ensures key.KKw? <==> KeyText(key)[0] != QUOTE
    ensures !key.KKw? ==> |KeyText(key)| >= 2 && var body := KeyText(key)[1..|KeyText(key)| - 1];
      match key
      case KStr(b, _) => body == b
      case KNum(tok, _) => body == tok && tok != [] && tok[0] != LBRACE && tok[0] != LBRACKET
      case KNode(v, _) => body == Escape(Print(v)) && body != [] && (body[0] == LBRACE || body[0] == LBRACKET)
      case _ => false
  {
    match key
    case KStr(b, _) => assert Quoted(b)[1..|Quoted(b)| - 1] == b;
    case KNum(tok, _) => assert Quoted(tok)[1..|Quoted(tok)| - 1] == tok;
    case KNode(v, _) =>
      var b := Escape(Print(v));
      assert Quoted(b)[1..|Quoted(b)| - 1] == b;
      assert Print(v)[0] == Open(v.kind);
    case _ =>
  }
}
