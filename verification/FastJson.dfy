/** The one-pass normaliser that quotes the bare object keys of fastjson text.
    `Normalize` is the specification; the methods are the index loops of the source. */
module FastJson {
  import opened Bytes

  const QUOTE: byte := 34
  const BACKSLASH: byte := 92
  const COMMA: byte := 44
  const COLON: byte := 58
  const LBRACE: byte := 123
  const RBRACE: byte := 125
  const LBRACKET: byte := 91
  const RBRACKET: byte := 93
  const MINUS: byte := 45

  datatype PState = ExpectKey | ExpectColon | ExpectValue | AfterValue

  datatype Kind = Object | Array

  /** Everything the loop carries besides its position and its output. */
  datatype Mode = Mode(st: PState, stack: seq<Kind>, inString: bool, escaped: bool)

  const INITIAL: Mode := Mode(ExpectValue, [], false, false)

  predicate IsSpace(c: byte) { c == 32 || c == 9 || c == 10 || c == 13 }

  predicate IsDigit(c: byte) { 48 <= c <= 57 }

  predicate StartsNumber(c: byte) { c == MINUS || IsDigit(c) }

  predicate StartsKeyword(c: byte) { c == 116 || c == 102 || c == 110 }

  predicate IsOpener(c: byte) { c == LBRACE || c == LBRACKET }

  /** The two kinds of bare token: numbers and the lower-case keywords. */
  datatype Class = Number | Keyword

  predicate InClass(k: Class, c: byte) {
    match k
    case Number => c == 46 || c == 101 || c == 69 || c == 43 || c == MINUS || IsDigit(c)
    case Keyword => 97 <= c <= 122
  }

  /** Length of the longest prefix of `s` made of bytes of class `k`. */
  function RunLen(k: Class, s: bytes): (n: nat)
    ensures n <= |s|
  {
    if s != [] && InClass(k, s[0]) then 1 + RunLen(k, s[1..]) else 0
  }

  lemma {:induction false} RunLenIsMaximal(k: Class, s: bytes)
    ensures var n := RunLen(k, s);
            (forall i :: 0 <= i < n ==> InClass(k, s[i])) && (n < |s| ==> !InClass(k, s[n]))
  {
    if s != [] && InClass(k, s[0]) { RunLenIsMaximal(k, s[1..]); }
  }

  function Open(k: Kind): byte { if k.Object? then LBRACE else LBRACKET }

  function Close(k: Kind): byte { if k.Object? then RBRACE else RBRACKET }

  /** The state of the bracket counter that captures a composite key. */
  datatype Cap = Cap(depth: int, inStr: bool, esc: bool)

  predicate Closes(k: Kind, cap: Cap, c: byte) { !cap.inStr && c == Close(k) && cap.depth == 1 }

  function CapStep(k: Kind, cap: Cap, c: byte): Cap {
    if cap.inStr then Cap(cap.depth, cap.esc || c != QUOTE, !cap.esc && c == BACKSLASH)
    else if c == QUOTE then Cap(cap.depth, true, false)
    else if c == Open(k) then Cap(cap.depth + 1, false, false)
    else if c == Close(k) then Cap(cap.depth - 1, false, false)
    else cap
  }

  /** Where the bracket that brings the depth to zero sits: the number of bytes up to and
      including it, or None. Only brackets of kind `k` outside strings are counted. */
  function CaptureLen(k: Kind, s: bytes, cap: Cap): (r: Option<nat>)
    ensures r.Some? ==> 1 <= r.value <= |s|
  {
    if s == [] then None
    else if Closes(k, cap, s[0]) then Some(1)
    else Plus(1, CaptureLen(k, s[1..], CapStep(k, cap, s[0])))
  }

  const OUTSIDE := Cap(0, false, false)

  function KindOf(c: byte): Kind { if c == LBRACE then Object else Array }

  function Plus(n: nat, r: Option<nat>): Option<nat> {
    if r.Some? then Some(n + r.value) else None
  }

  /** A raw token made fit to sit inside a JSON string literal. */
  function Escape(s: bytes): bytes {
    if s == [] then []
    else (if s[0] == BACKSLASH || s[0] == QUOTE then [BACKSLASH, s[0]] else [s[0]]) + Escape(s[1..])
  }

  function Quoted(s: bytes): bytes { [QUOTE] + s + [QUOTE] }

  /** What one byte that is copied unchanged does to the mode. */
  function ByteStep(c: byte, m: Mode): Mode {
    if m.inString then
      if m.escaped then m.(escaped := false)
      else if c == BACKSLASH then m.(escaped := true)
      else if c == QUOTE then
        m.(inString := false,
           st := if m.st.ExpectKey? then ExpectColon else if m.st.ExpectValue? then AfterValue else m.st)
      else m
    else if c == QUOTE then m.(inString := true)
    else if c == COLON then m.(st := ExpectValue)
    else if c == LBRACE then m.(stack := m.stack + [Object], st := ExpectKey)
    else if c == LBRACKET then m.(stack := m.stack + [Array], st := ExpectValue)
    else if c == RBRACE || c == RBRACKET then
      m.(stack := if m.stack == [] then [] else m.stack[..|m.stack| - 1], st := AfterValue)
    else if c == COMMA then
      m.(st := if m.stack != [] && m.stack[|m.stack| - 1] == Object then ExpectKey else ExpectValue)
    else m
  }

  predicate CopiesByte(c: byte, m: Mode) {
    m.inString || !(StartsKeyword(c) || StartsNumber(c) || (IsOpener(c) && m.st.ExpectKey?))
  }

  /** One turn of the loop: how much input it takes, what it writes, the mode it leaves. */
  datatype Turn = Turn(len: nat, text: bytes, mode: Mode)

  function Next(s: bytes, m: Mode): (t: Turn)
    requires s != []
    ensures 1 <= t.len <= |s|
  {
    var c := s[0];
    if CopiesByte(c, m) then Turn(1, [c], ByteStep(c, m))
    else if StartsKeyword(c) then
      Turn(RunLen(Keyword, s), s[..RunLen(Keyword, s)], m.(st := AfterValue))
    else if StartsNumber(c) then
      var n := RunLen(Number, s);
      if m.st.ExpectKey? then Turn(n, Quoted(s[..n]), m.(st := ExpectColon))
      else Turn(n, s[..n], m.(st := AfterValue))
    else
      var r := CaptureLen(KindOf(c), s, OUTSIDE);
      if r.None? then Turn(|s|, s, m)
      else Turn(r.value, Quoted(Escape(s[..r.value])), m.(st := ExpectColon))
  }

  function Rewrite(s: bytes, m: Mode): (out: bytes)
    decreases |s|
  {
    if s == [] then []
    else var t := Next(s, m); t.text + Rewrite(s[t.len..], t.mode)
  }

  function Normalize(b: bytes): bytes { Rewrite(b, INITIAL) }

  // ---- The source's loops, each proved against the functions above ----

  method ScanRun(k: Class, b: bytes, start: nat) returns (next: nat)
    requires start <= |b|
    ensures next == start + RunLen(k, b[start..])
  {
    next := start;
    while next < |b| && InClass(k, b[next])
      invariant start <= next <= |b|
      invariant start + RunLen(k, b[start..]) == next + RunLen(k, b[next..])
    {
      assert b[next..][1..] == b[next + 1..];
      next := next + 1;
    }
  }

  method ScanNumber(b: bytes, start: nat) returns (token: bytes, next: nat)
    requires start < |b|
    ensures next == start + RunLen(Number, b[start..]) && token == b[start..next]
  {
    var i := start;
    if b[i] == MINUS {
      assert b[start..][1..] == b[start + 1..];
      i := i + 1;
    }
    next := ScanRun(Number, b, i);
    token := b[start..next];
  }

  method CaptureValue(b: bytes, start: nat) returns (token: bytes, next: nat, ok: bool)
    requires start < |b| && IsOpener(b[start])
    ensures var r := CaptureLen(KindOf(b[start]), b[start..], OUTSIDE);
            ok == r.Some? && (ok ==> next == start + r.value && token == b[start..next])
  {
    var kind := KindOf(b[start]);
    var cap := OUTSIDE;
    var i := start;
    while i < |b|
      invariant start <= i <= |b|
      invariant CaptureLen(kind, b[start..], OUTSIDE) == Plus(i - start, CaptureLen(kind, b[i..], cap))
      invariant !cap.inStr ==> !cap.esc
    {
      var c := b[i];
      assert b[i..][1..] == b[i + 1..];
      var closed;
      cap, closed := CaptureByte(kind, cap, c);
      if closed {
        return b[start..i + 1], i + 1, true;
      }
      i := i + 1;
    }
    return [], i, false;
  }

  /** The body of the capture loop. */
  method CaptureByte(kind: Kind, cap: Cap, c: byte) returns (r: Cap, closed: bool)
    requires !cap.inStr ==> !cap.esc
    ensures closed == Closes(kind, cap, c) && r == CapStep(kind, cap, c)
    ensures !r.inStr ==> !r.esc
  {
    r, closed := cap, false;
    if r.inStr {
      if r.esc {
        r := r.(esc := false);
      } else if c == BACKSLASH {
        r := r.(esc := true);
      } else if c == QUOTE {
        r := r.(inStr := false);
      }
    } else if c == QUOTE {
      r := r.(inStr := true);
    } else if c == Open(kind) {
      r := r.(depth := r.depth + 1);
    } else if c == Close(kind) {
      r := r.(depth := r.depth - 1);
      closed := r.depth == 0;
    }
  }

  /** `strings.ReplaceAll` for a one-byte pattern. */
  function ReplaceAll(s: bytes, c: byte, with: bytes): bytes {
    if s == [] then [] else (if s[0] == c then with else [s[0]]) + ReplaceAll(s[1..], c, with)
  }

  lemma {:induction false} ReplaceAllConcat(s: bytes, t: bytes, c: byte, with: bytes)
    ensures ReplaceAll(s + t, c, with) == ReplaceAll(s, c, with) + ReplaceAll(t, c, with)
  {
    if s == [] {
      assert s + t == t;
    } else {
      assert (s + t)[1..] == s[1..] + t;
      ReplaceAllConcat(s[1..], t, c, with);
    }
  }

  /** Doubling backslashes first and escaping quotes second never touches the same byte twice. */
  lemma {:induction false} EscapeIsTwoReplacements(s: bytes)
    ensures ReplaceAll(ReplaceAll(s, BACKSLASH, [BACKSLASH, BACKSLASH]), QUOTE, [BACKSLASH, QUOTE]) == Escape(s)
  {
    if s != [] {
      EscapeIsTwoReplacements(s[1..]);
      var head := if s[0] == BACKSLASH then [BACKSLASH, BACKSLASH] else [s[0]];
      ReplaceAllConcat(head, ReplaceAll(s[1..], BACKSLASH, [BACKSLASH, BACKSLASH]), QUOTE, [BACKSLASH, QUOTE]);
      assert head[1..] == if s[0] == BACKSLASH then [BACKSLASH] else [];
      assert s[0] == BACKSLASH ==> head[1..][1..] == [];
    }
  }

  method EscapeForString(token: bytes) returns (r: bytes)
    ensures r == Escape(token)
  {
    r := ReplaceAll(token, BACKSLASH, [BACKSLASH, BACKSLASH]);
    r := ReplaceAll(r, QUOTE, [BACKSLASH, QUOTE]);
    EscapeIsTwoReplacements(token);
  }

  /** The cases of the main loop that write one byte unchanged. */
  method CopyByte(c: byte, m: Mode) returns (r: Mode)
    ensures r == ByteStep(c, m)
  {
    r := m;
    if m.inString {
      if m.escaped {
        r := r.(escaped := false);
      } else if c == BACKSLASH {
        r := r.(escaped := true);
      } else if c == QUOTE {
        r := r.(inString := false);
        if m.st == ExpectKey {
          r := r.(st := ExpectColon);
        } else if m.st == ExpectValue {
          r := r.(st := AfterValue);
        }
      }
    } else if c == QUOTE {
      r := r.(inString := true);
    } else if c == COLON {
      r := r.(st := ExpectValue);
    } else if c == LBRACE {
      r := r.(stack := r.stack + [Object], st := ExpectKey);
    } else if c == LBRACKET {
      r := r.(stack := r.stack + [Array], st := ExpectValue);
    } else if c == RBRACE || c == RBRACKET {
      if |r.stack| > 0 {
        r := r.(stack := r.stack[..|r.stack| - 1]);
      }
      r := r.(st := AfterValue);
    } else if c == COMMA {
      var inObject := |r.stack| > 0 && r.stack[|r.stack| - 1] == Object;
      r := r.(st := if inObject then ExpectKey else ExpectValue);
    }
  }

  /** The cases that take a whole token: a bare composite key, a keyword, a number. */
  method TakeToken(b: bytes, i: nat, m: Mode) returns (text: bytes, next: nat, r: Mode)
    requires i < |b| && !CopiesByte(b[i], m)
    ensures i < next && Next(b[i..], m) == Turn(next - i, text, r)
  {
    var c := b[i];
    if StartsKeyword(c) {
      next := ScanRun(Keyword, b, i);
      text, r := b[i..next], m.(st := AfterValue);
      assert b[i..][..next - i] == text;
    } else if StartsNumber(c) {
      var token;
      token, next := ScanNumber(b, i);
      assert b[i..][..next - i] == token;
      if m.st == ExpectKey {
        text, r := Quoted(token), m.(st := ExpectColon);
      } else {
        text, r := token, m.(st := AfterValue);
      }
    } else {
      var token, ok;
      token, next, ok := CaptureValue(b, i);
      if !ok {
        return b[i..], |b|, m;
      }
      assert b[i..][..next - i] == token;
      var escaped := EscapeForString(token);
      text, r := Quoted(escaped), m.(st := ExpectColon);
    }
  }

  method OneTurn(b: bytes, i: nat, m: Mode) returns (text: bytes, next: nat, r: Mode)
    requires i < |b|
    ensures i < next <= |b| && Next(b[i..], m) == Turn(next - i, text, r)
  {
    if CopiesByte(b[i], m) {
      text, next := [b[i]], i + 1;
      r := CopyByte(b[i], m);
    } else {
      text, next, r := TakeToken(b, i, m);
    }
  }

  lemma RewriteUnfolds(b: bytes, i: nat, m: Mode, text: bytes, next: nat, r: Mode)
    requires i < next <= |b| && Next(b[i..], m) == Turn(next - i, text, r)
    ensures Rewrite(b[i..], m) == text + Rewrite(b[next..], r)
  {
    assert b[i..][next - i..] == b[next..];
  }

  /** One turn moves its text from what is left to rewrite to what is written. */
  lemma RewriteTurn(out: bytes, b: bytes, i: nat, m: Mode, text: bytes, next: nat, r: Mode)
    requires i < next <= |b| && Next(b[i..], m) == Turn(next - i, text, r)
    ensures out + Rewrite(b[i..], m) == (out + text) + Rewrite(b[next..], r)
  {
    RewriteUnfolds(b, i, m, text, next, r);
    Associate(out, text, Rewrite(b[next..], r));
  }

  lemma Associate(a: bytes, b: bytes, c: bytes)
    ensures a + (b + c) == (a + b) + c
  {
  }

  method NormalizeKeys(b: bytes) returns (out: bytes)
    ensures out == Normalize(b)
  {
    out := [];
    var m, i := INITIAL, 0;
    assert b[0..] == b;
    while i < |b|
      invariant 0 <= i <= |b|
      invariant out + Rewrite(b[i..], m) == Normalize(b)
    {
      var text, next, r := OneTurn(b, i, m);
      RewriteTurn(out, b, i, m, text, next, r);
      out, i, m := out + text, next, r;
    }
  }
}
