/** What normalisation guarantees on every byte sequence, well formed or not. */
module FastJsonLaws {
  import opened Bytes
  import opened FastJson

  /** The mode in which a run over `s` ends. */
  function EndMode(s: bytes, m: Mode): Mode
    decreases |s|
  {
    if s == [] then m else var t := Next(s, m); EndMode(s[t.len..], t.mode)
  }

  /** A string literal's contents: no bare quote, and no backslash left without its partner. */
  predicate LiteralBody(s: bytes) {
    s == [] || (if s[0] == BACKSLASH then |s| >= 2 && LiteralBody(s[2..]) else s[0] != QUOTE && LiteralBody(s[1..]))
  }

  lemma {:induction false} EscapeShape(s: bytes)
    ensures LiteralBody(Escape(s)) && |s| <= |Escape(s)| <= 2 * |s|
  {
    if s != [] {
      EscapeShape(s[1..]);
      if s[0] == BACKSLASH || s[0] == QUOTE {
        assert Escape(s)[2..] == Escape(s[1..]);
      } else {
        assert Escape(s)[1..] == Escape(s[1..]);
      }
    }
  }

  lemma {:induction false} NumberIsLiteral(s: bytes)
    requires forall i :: 0 <= i < |s| ==> InClass(Number, s[i])
    ensures LiteralBody(s)
  {
    if s != [] { NumberIsLiteral(s[1..]); }
  }

  /** JSON string decoding restricted to the two escapes that `Escape` writes. */
  function Unescape(s: bytes): (r: Option<bytes>) {
    if s == [] then Some([])
    else if s[0] == BACKSLASH then
      if |s| >= 2 && (s[1] == BACKSLASH || s[1] == QUOTE) then Prepend(s[1], Unescape(s[2..])) else None
    else if s[0] == QUOTE then None
    else Prepend(s[0], Unescape(s[1..]))
  }

  function Prepend(c: byte, r: Option<bytes>): Option<bytes> {
    if r.Some? then Some([c] + r.value) else None
  }

  /** A quoted composite key decodes to its exact original bytes. */
  lemma {:induction false} UnescapeEscape(s: bytes)
    ensures Unescape(Escape(s)) == Some(s)
  {
    if s != [] {
      UnescapeEscape(s[1..]);
      assert s == [s[0]] + s[1..];
      if s[0] == BACKSLASH || s[0] == QUOTE {
        assert Escape(s)[2..] == Escape(s[1..]);
      } else {
        assert Escape(s)[1..] == Escape(s[1..]);
      }
    }
  }

  // ---- One turn at a time ----

  /** And only the escaping of a token decodes to that token. */
  lemma {:induction false} EscapeUnescape(s: bytes)
    requires Unescape(s).Some?
    ensures Escape(Unescape(s).value) == s
  {
    if s != [] {
      var n := if s[0] == BACKSLASH then 2 else 1;
      EscapeUnescape(s[n..]);
      assert Unescape(s).value[1..] == Unescape(s[n..]).value;
      assert s == s[..n] + s[n..];
    }
  }

  lemma TurnIs(s: bytes, m: Mode, t: Turn)
    requires s != [] && Next(s, m) == t
    ensures Rewrite(s, m) == t.text + Rewrite(s[t.len..], t.mode)
    ensures EndMode(s, m) == EndMode(s[t.len..], t.mode)
  {
  }

  lemma CopyIs(c: byte, rest: bytes, m: Mode)
    requires CopiesByte(c, m)
    ensures Rewrite([c] + rest, m) == [c] + Rewrite(rest, ByteStep(c, m))
    ensures EndMode([c] + rest, m) == EndMode(rest, ByteStep(c, m))
  {
    TurnIs([c] + rest, m, Turn(1, [c], ByteStep(c, m)));
    assert ([c] + rest)[1..] == rest;
  }

  lemma {:induction false} RunLenConcat(k: Class, tok: bytes, rest: bytes)
    requires forall i :: 0 <= i < |tok| ==> InClass(k, tok[i])
    requires rest != [] ==> !InClass(k, rest[0])
    ensures RunLen(k, tok + rest) == |tok|
  {
    if tok == [] {
      assert tok + rest == rest;
    } else {
      assert (tok + rest)[1..] == tok[1..] + rest;
      RunLenConcat(k, tok[1..], rest);
    }
  }

  /** The mode after `text` when every byte of it is copied, None when some byte is not. */
  function CopyEnd(text: bytes, m: Mode): (r: Option<Mode>) {
    if text == [] then Some(m)
    else if CopiesByte(text[0], m) then CopyEnd(text[1..], ByteStep(text[0], m))
    else None
  }

  lemma {:induction false} CopyEndConcat(a: bytes, b: bytes, m: Mode)
    requires CopyEnd(a, m).Some?
    ensures CopyEnd(a + b, m) == CopyEnd(b, CopyEnd(a, m).value)
  {
    if a == [] {
      assert a + b == b;
    } else {
      assert (a + b)[1..] == a[1..] + b;
      CopyEndConcat(a[1..], b, ByteStep(a[0], m));
    }
  }

  lemma {:induction false} CopyText(text: bytes, rest: bytes, m: Mode)
    requires CopyEnd(text, m).Some?
    ensures Rewrite(text + rest, m) == text + Rewrite(rest, CopyEnd(text, m).value)
    ensures EndMode(text + rest, m) == EndMode(rest, CopyEnd(text, m).value)
  {
    if text == [] {
      assert text + rest == rest;
    } else {
      var tail := text[1..] + rest;
      assert text + rest == [text[0]] + tail;
      CopyText(text[1..], rest, ByteStep(text[0], m));
      CopyIs(text[0], tail, m);
      assert text == [text[0]] + text[1..];
    }
  }

  /** Text inside a string literal is copied up to and including its closing quote. */
  lemma {:induction false} LiteralCopied(body: bytes, m: Mode)
    requires m.inString && !m.escaped && LiteralBody(body)
    ensures CopyEnd(body + [QUOTE], m) == Some(ByteStep(QUOTE, m))
    decreases |body|
  {
    var text := body + [QUOTE];
    if body != [] {
      var k := if body[0] == BACKSLASH then 2 else 1;
      LiteralCopied(body[k..], m);
      assert text[1..][k - 1..] == body[k..] + [QUOTE];
      assert k == 1 ==> text[1..] == body[1..] + [QUOTE];
    } else {
      assert text[1..] == [];
    }
  }

  predicate Ready(m: Mode) { !m.inString && !m.escaped }

  lemma QuotedCopies(body: bytes, m: Mode)
    requires Ready(m) && LiteralBody(body)
    ensures CopyEnd(Quoted(body), m) == Some(ByteStep(QUOTE, m.(inString := true)))
  {
    LiteralCopied(body, m.(inString := true));
    assert Quoted(body)[1..] == body + [QUOTE];
  }

  predicate BareStart(k: Class, c: byte) { if k.Number? then StartsNumber(c) else StartsKeyword(c) }

  /** A bare number or keyword in value position is copied, as long as what follows ends it. */
  lemma BareCopied(k: Class, tok: bytes, rest: bytes, m: Mode)
    requires !m.inString && tok != [] && BareStart(k, tok[0]) && (k.Keyword? || !m.st.ExpectKey?)
    requires forall i :: 0 <= i < |tok| ==> InClass(k, tok[i])
    requires rest != [] ==> !InClass(k, rest[0])
    ensures Rewrite(tok + rest, m) == tok + Rewrite(rest, m.(st := AfterValue))
    ensures EndMode(tok + rest, m) == EndMode(rest, m.(st := AfterValue))
  {
    RunLenConcat(k, tok, rest);
    assert (tok + rest)[..|tok|] == tok && (tok + rest)[|tok|..] == rest;
    TurnIs(tok + rest, m, Turn(|tok|, tok, m.(st := AfterValue)));
  }

  /** Outside key position the first byte of the input is the first byte of the output. */
  lemma HeadKept(s: bytes, m: Mode)
    requires s != [] && (m.inString || !m.st.ExpectKey?)
    ensures Rewrite(s, m) != [] && Rewrite(s, m)[0] == s[0]
  {
    TurnIs(s, m, Next(s, m));
  }

  // ---- Idempotence and length ----

  /** The tracked modes never hold an escape flag outside a string. */
  predicate Tidy(m: Mode) { m.escaped ==> m.inString }

  /** A second run over the output takes the same turns in the same modes as the first run. */
  lemma {:induction false} SecondRunSimulates(s: bytes, m: Mode)
    requires Tidy(m)
    ensures Rewrite(Rewrite(s, m), m) == Rewrite(s, m)
    ensures EndMode(Rewrite(s, m), m) == EndMode(s, m)
    decreases |s|
  {
    if s != [] {
      var t := Next(s, m);
      var rest := s[t.len..];
      TurnIs(s, m, t);
      SecondRunSimulates(rest, t.mode);
      if rest != [] && (t.mode.inString || !t.mode.st.ExpectKey?) { HeadKept(rest, t.mode); }
      SecondTurn(s, m, Rewrite(rest, t.mode));
    }
  }

  /** `out` can stand behind the text of the first turn as `rest` stood behind its input. */
  predicate Continues(rest: bytes, m: Mode, out: bytes) {
    && (rest == [] ==> out == [])
    && (rest != [] && (m.inString || !m.st.ExpectKey?) ==> out != [] && out[0] == rest[0])
  }

  lemma SecondTurn(s: bytes, m: Mode, out: bytes)
    requires s != [] && Tidy(m) && Continues(s[Next(s, m).len..], Next(s, m).mode, out)
    ensures Tidy(Next(s, m).mode)
    ensures var t := Next(s, m);
            && Rewrite(t.text + out, m) == t.text + Rewrite(out, t.mode)
            && EndMode(t.text + out, m) == EndMode(out, t.mode)
  {
    var t, c := Next(s, m), s[0];
    if CopiesByte(c, m) {
      CopyIs(c, out, m);
    } else if StartsKeyword(c) || (StartsNumber(c) && !m.st.ExpectKey?) {
      var k := if StartsKeyword(c) then Keyword else Number;
      RunLenIsMaximal(k, s);
      BareCopied(k, t.text, out, m);
    } else if StartsNumber(c) || CaptureLen(KindOf(c), s, OUTSIDE).Some? {
      QuotedTurn(s, m);
      CopyText(t.text, out, m);
    } else {
      assert t.text + out == s;
      TurnIs(s, m, t);
    }
  }

  lemma QuotedTurn(s: bytes, m: Mode)
    requires s != [] && Ready(m) && m.st.ExpectKey? && !CopiesByte(s[0], m) && !StartsKeyword(s[0])
    requires StartsNumber(s[0]) || CaptureLen(KindOf(s[0]), s, OUTSIDE).Some?
    ensures CopyEnd(Next(s, m).text, m) == Some(Next(s, m).mode)
  {
    var n := Next(s, m).len;
    if StartsNumber(s[0]) {
      RunLenIsMaximal(Number, s);
      NumberIsLiteral(s[..n]);
      QuotedCopies(s[..n], m);
    } else {
      EscapeShape(s[..n]);
      QuotedCopies(Escape(s[..n]), m);
    }
  }

  lemma NormalizeIdempotent(b: bytes)
    ensures Normalize(Normalize(b)) == Normalize(b)
  {
    SecondRunSimulates(b, INITIAL);
  }

  /** Nothing is lost, and quoting at most triples the text. */
  lemma {:induction false} LengthBounds(s: bytes, m: Mode)
    ensures |s| <= |Rewrite(s, m)| <= 3 * |s|
    decreases |s|
  {
    if s != [] {
      var t := Next(s, m);
      TurnIs(s, m, t);
      LengthBounds(s[t.len..], t.mode);
      EscapeShape(s[..t.len]);
      assert t.len <= |t.text| <= 3 * t.len by { CapturedTwo(s, m); }
    }
  }

  lemma CapturedTwo(s: bytes, m: Mode)
    requires s != []
    ensures !CopiesByte(s[0], m) && IsOpener(s[0]) ==> Next(s, m).len >= 2 || s == Next(s, m).text
  {
  }
}
