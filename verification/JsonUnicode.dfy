/** The surrogate check on JSON text, against section 7 of RFC 8259. */
module JsonUnicode {
  import opened Options
  import opened Bytes
  import opened Values
  import opened Decimals
  import opened TypedCodec

  const QUOTE: Byte := 0x22
  const BACKSLASH: Byte := 0x5C
  const LETTER_U: Byte := 0x75

  // ---------- the scanner ----------

  function HexDigit(c: Byte): (v: Option<nat>)
    ensures v.Some? ==> v.value < 16
  {
    if 0x30 <= c <= 0x39 then Some(c - 0x30)
    else if 0x61 <= c <= 0x66 then Some(c - 0x61 + 10)
    else if 0x41 <= c <= 0x46 then Some(c - 0x41 + 10)
    else None
  }

  /** The number denoted by leading hexadecimal digits. */
  function HexValue(s: seq<Byte>): (v: Option<nat>) {
    if s == [] then Some(0)
    else
      var n := |s| - 1;
      var before, last := HexValue(s[..n]), HexDigit(s[n]);
      if before.None? || last.None? then None else Some(16 * before.value + last.value)
  }

  function CodeUnit(s: seq<Byte>): (v: Option<Unit>) {
    if |s| < 4 then None
    else
      HexBound(s[..4]);
      match HexValue(s[..4])
      case None => None
      case Some(v) => Some(v)
  }

  lemma HexBound(s: seq<Byte>)
    requires |s| == 4
    ensures HexValue(s).Some? ==> HexValue(s).value < 0x1_0000
  {
    assert s[..3][..2] == s[..2] && s[..2][..1] == s[..1] && s[..1][..0] == [];
    assert HexValue(s[..1]).Some? ==> HexValue(s[..1]).value < 16;
    assert HexValue(s[..2]).Some? ==> HexValue(s[..2]).value < 256;
    assert HexValue(s[..3]).Some? ==> HexValue(s[..3]).value < 4096;
  }

  /** Acceptance of the rest of the text, inside or outside a string. */
  predicate Accepts(s: seq<Byte>, inString: bool)
    decreases |s|
  {
    if s == [] then true
    else if s[0] == QUOTE then Accepts(s[1..], !inString)
    else if inString && s[0] == BACKSLASH then
      if |s| < 2 then true
      else if s[1] != LETTER_U then Accepts(s[2..], inString)
      else
        var first := CodeUnit(s[2..]);
        if first.None? || LowSurrogate(first.value) then false
        else if !HighSurrogate(first.value) then Accepts(s[6..], inString)
        else
          |s| >= 12 && s[6] == BACKSLASH && s[7] == LETTER_U && CodeUnit(s[8..]).Some? &&
          LowSurrogate(CodeUnit(s[8..]).value) &&
          Accepts(s[12..], inString)
    else Accepts(s[1..], inString)
  }

  method HexCodeUnit(data: seq<Byte>) returns (v: Option<Unit>)
    ensures v == CodeUnit(data)
  {
    if |data| < 4 {
      return None;
    }
    var value := 0;
    var i := 0;
    HexBound(data[..4]);
    while i < 4
      invariant 0 <= i <= 4 && HexValue(data[..i]) == Some(value)
    {
      assert data[..i + 1][..i] == data[..i];
      var digit := HexDigit(data[i]);
      if digit.None? {
        HexMissing(data[..4], i);
        return None;
      }
      value := (value * 16 + digit.value) % 0x1_0000;
      assert HexValue(data[..i + 1]).value < 0x1_0000 by {
        HexPrefix(data[..4], i + 1);
      }
      i := i + 1;
    }
    return Some(value);
  }

  lemma {:induction false} HexMissing(s: seq<Byte>, i: nat)
    requires i < |s| && HexDigit(s[i]).None?
    ensures HexValue(s).None?
    decreases |s|
  {
    if i < |s| - 1 {
      HexMissing(s[..|s| - 1], i);
    }
  }

  lemma HexPrefix(s: seq<Byte>, i: nat)
    requires |s| == 4 && 1 <= i <= 4
    ensures HexValue(s[..i]).Some? ==> HexValue(s[..i]).value < 0x1_0000
  {
    HexBound(s);
    assert s[..4] == s && s[..3][..2] == s[..2] && s[..2][..1] == s[..1] && s[..1][..0] == [];
    assert HexValue(s[..1]).Some? ==> HexValue(s[..1]).value < 16;
    assert HexValue(s[..2]).Some? ==> HexValue(s[..2]).value < 256;
    assert HexValue(s[..3]).Some? ==> HexValue(s[..3]).value < 4096;
  }

  /** One linear pass with an index and a flag. */
  method ValidateJsonUnicode(data: seq<Byte>) returns (ok: bool)
    ensures ok <==> ValidUtf8(data) && Accepts(data, false)
  {
    if !ValidUtf8(data) {
      return false;
    }
    var inString := false;
    var i := 0;
    assert data[0..] == data;
    while i < |data|
      invariant 0 <= i
      invariant i <= |data| ==> (Accepts(data, false) <==> Accepts(data[i..], inString))
      invariant i > |data| ==> Accepts(data, false)
      decreases |data| - i
    {
      ghost var rest := data[i..];
      assert forall k :: 0 <= k <= |rest| ==> rest[k..] == data[i + k..];
      if data[i] == QUOTE {
        inString := !inString;
        i := i + 1;
      } else if inString && data[i] == BACKSLASH {
        if i + 1 >= |data| || data[i + 1] != LETTER_U {
          i := i + 2;
        } else {
          var first := HexCodeUnit(data[i + 2..]);
          if first.None? || LowSurrogate(first.value) {
            return false;
          }
          if HighSurrogate(first.value) {
            if i + 12 > |data| || data[i + 6] != BACKSLASH || data[i + 7] != LETTER_U {
              return false;
            }
            var second := HexCodeUnit(data[i + 8..]);
            if second.None? || !LowSurrogate(second.value) {
              return false;
            }
            i := i + 12;
          } else {
            i := i + 6;
          }
        }
      } else {
        i := i + 1;
      }
    }
    return true;
  }

  // ---------- JSON strings, as the grammar builds them ----------

  /** One character of a string: a literal code point, a backslash with the code point
      behind it, or a `\u` escape with its four digits. */
  datatype Char =
    | Literal(bytes: seq<Byte>)
    | Escape(point: seq<Byte>)
    | Hex(digits: seq<Byte>)

  predicate ValidChar(c: Char) {
    match c
    case Literal(b) => b != [] && LeadLength(b) == |b| && QUOTE !in b && BACKSLASH !in b
    case Escape(b) => b != [] && LeadLength(b) == |b| && b[0] != LETTER_U
    case Hex(digits) => |digits| == 4 && CodeUnit(digits).Some?
  }

  /** A text is a sequence of stretches without quotes and of string tokens. */
  datatype Piece = Plain(bytes: seq<Byte>) | Token(chars: seq<Char>)

  predicate ValidPiece(p: Piece) {
    match p
    case Plain(b) => QUOTE !in b
    case Token(chars) => forall i :: 0 <= i < |chars| ==> ValidChar(chars[i])
  }

  function CharBytes(c: Char): (b: seq<Byte>) {
    match c
    case Literal(bytes) => bytes
    case Escape(point) => [BACKSLASH] + point
    case Hex(digits) => [BACKSLASH, LETTER_U] + digits
  }

  function CharsBytes(chars: seq<Char>): (b: seq<Byte>) {
    if chars == [] then [] else CharBytes(chars[0]) + CharsBytes(chars[1..])
  }

  function PieceBytes(p: Piece): (b: seq<Byte>) {
    match p
    case Plain(bytes) => bytes
    case Token(chars) => [QUOTE] + CharsBytes(chars) + [QUOTE]
  }

  function Render(pieces: seq<Piece>): (b: seq<Byte>) {
    if pieces == [] then [] else PieceBytes(pieces[0]) + Render(pieces[1..])
  }

  /** How a text ends: outside a string, inside one after its last character, inside one
      right after a backslash, or inside one at a `\u` without four digits, whatever
      follows. */
  datatype Ending =
    | Outside
    | Open(chars: seq<Char>)
    | Cut(chars: seq<Char>)
    | Malformed(chars: seq<Char>, digits: seq<Byte>)

  predicate ValidEnding(e: Ending) {
    && (!e.Outside? ==> forall i :: 0 <= i < |e.chars| ==> ValidChar(e.chars[i]))
    && (e.Malformed? ==> CodeUnit(e.digits).None?)
  }

  /** What stands behind the last complete character. */
  function Rest(e: Ending): (b: seq<Byte>) {
    match e
    case Cut(_) => [BACKSLASH]
    case Malformed(_, digits) => [BACKSLASH, LETTER_U] + digits
    case _ => []
  }

  function RenderEnding(e: Ending): (b: seq<Byte>) {
    if e.Outside? then [] else [QUOTE] + CharsBytes(e.chars) + Rest(e)
  }

  // ---------- what a string denotes ----------

  /** The code point of one UTF-8 sequence. */
  function CodePoint(b: seq<Byte>): (p: nat)
    requires b != [] && LeadLength(b) == |b|
  {
    var x: int, y: int, z: int, w: int :=
      b[0], if |b| > 1 then b[1] - 0x80 else 0, if |b| > 2 then b[2] - 0x80 else 0, if |b| > 3 then b[3] - 0x80 else 0;
    if |b| == 1 then x
    else if |b| == 2 then (x - 0xC0) * 0x40 + y
    else if |b| == 3 then (x - 0xE0) * 0x1000 + y * 0x40 + z
    else (x - 0xF0) * 0x4_0000 + y * 0x1000 + z * 0x40 + w
  }

  /** A code point in UTF-16. */
  function Utf16(p: nat): (units: seq<Unit>)
    requires p <= 0x10_FFFF
  {
    if p < 0x1_0000 then [p] else [0xD800 + (p - 0x1_0000) / 0x400, 0xDC00 + (p - 0x1_0000) % 0x400]
  }

  /** What an escape names does not matter here, only that it is no surrogate: the escaped
      code point itself stands for it. */
  function CharUnits(c: Char): (units: seq<Unit>)
    requires ValidChar(c)
  {
    match c
    case Literal(b) => LiteralRange(b); Utf16(CodePoint(b))
    case Escape(b) => LiteralRange(b); Utf16(CodePoint(b))
    case Hex(digits) => [CodeUnit(digits).value]
  }

  lemma LiteralRange(b: seq<Byte>)
    requires b != [] && LeadLength(b) == |b|
    ensures CodePoint(b) <= 0x10_FFFF && !(0xD800 <= CodePoint(b) <= 0xDFFF)
  {
  }

  function Units(chars: seq<Char>): (units: seq<Unit>)
    requires forall i :: 0 <= i < |chars| ==> ValidChar(chars[i])
  {
    if chars == [] then [] else CharUnits(chars[0]) + Units(chars[1..])
  }

  predicate HighEscape(c: Char) {
    c.Hex? && CodeUnit(c.digits).Some? && HighSurrogate(CodeUnit(c.digits).value)
  }

  predicate LowEscape(c: Char) {
    c.Hex? && CodeUnit(c.digits).Some? && LowSurrogate(CodeUnit(c.digits).value)
  }

  // ---------- the scanner accepts exactly the well-formed strings ----------

  lemma {:induction false} SkipPlain(b: seq<Byte>, rest: seq<Byte>, inString: bool)
    requires QUOTE !in b && (inString ==> BACKSLASH !in b)
    ensures Accepts(b + rest, inString) <==> Accepts(rest, inString)
    decreases |b|
  {
    if b == [] {
      assert b + rest == rest;
    } else {
      assert (b + rest)[0] == b[0] && (b + rest)[1..] == b[1..] + rest;
      SkipPlain(b[1..], rest, inString);
    }
  }

  lemma WellFormedSkip(head: seq<Unit>, rest: seq<Unit>)
    requires (|head| == 1 && !HighSurrogate(head[0]) && !LowSurrogate(head[0])) ||
             (|head| == 2 && HighSurrogate(head[0]) && LowSurrogate(head[1]))
    ensures WellFormed(head + rest) <==> WellFormed(rest)
  {
    var s := head + rest;
    assert s[|head|..] == rest;
  }

  lemma LiteralUnits(b: seq<Byte>)
    requires b != [] && LeadLength(b) == |b|
    ensures CodePoint(b) <= 0x10_FFFF
    ensures var u := Utf16(CodePoint(b));
            (|u| == 1 && !HighSurrogate(u[0]) && !LowSurrogate(u[0])) ||
            (|u| == 2 && HighSurrogate(u[0]) && LowSurrogate(u[1]))
  {
    LiteralRange(b);
  }

  /** The first unit of the next character, when there is one. */
  lemma NextUnit(chars: seq<Char>)
    requires forall i :: 0 <= i < |chars| ==> ValidChar(chars[i])
    ensures chars == [] ==> Units(chars) == []
    ensures chars != [] ==> Units(chars) != [] && (LowSurrogate(Units(chars)[0]) <==> LowEscape(chars[0]))
  {
    if chars != [] {
      var c := chars[0];
      assert ValidChar(c);
      if c.Literal? {
        LiteralUnits(c.bytes);
      } else if c.Escape? {
        LiteralUnits(c.point);
      }
      assert Units(chars)[0] == CharUnits(c)[0];
    }
  }

  lemma LoneHigh(high: Unit, rest: seq<Unit>)
    requires HighSurrogate(high) && (rest == [] || !LowSurrogate(rest[0]))
    ensures !WellFormed([high] + rest)
  {
    var s := [high] + rest;
    assert rest != [] ==> s[1] == rest[0];
  }

  /** Behind the first byte of a code point there is neither quote nor backslash. */
  lemma TrailBytes(b: seq<Byte>)
    requires b != [] && LeadLength(b) == |b|
    ensures QUOTE !in b[1..] && BACKSLASH !in b[1..]
  {
    assert forall k :: 0 <= k < |b[1..]| ==> b[1..][k] == b[k + 1] && b[k + 1] >= 0x80;
  }

  lemma SkipEscape(b: seq<Byte>, tail: seq<Byte>)
    requires b != [] && LeadLength(b) == |b| && b[0] != LETTER_U
    ensures Accepts([BACKSLASH] + b + tail, true) <==> Accepts(tail, true)
  {
    assert ([BACKSLASH] + b + tail)[2..] == b[1..] + tail;
    TrailBytes(b);
    SkipPlain(b[1..], tail, true);
  }

  /** A character other than a surrogate escape is passed over on both sides. */
  lemma OrdinaryChar(c: Char, chars: seq<Char>, tail: seq<Byte>)
    requires ValidChar(c) && (forall i :: 0 <= i < |chars| ==> ValidChar(chars[i]))
    requires !HighEscape(c) && !LowEscape(c)
    ensures Accepts(CharBytes(c) + tail, true) <==> Accepts(tail, true)
    ensures WellFormed(CharUnits(c) + Units(chars)) <==> WellFormed(Units(chars))
  {
    var s := CharBytes(c) + tail;
    match c
    case Literal(b) =>
      SkipPlain(b, tail, true);
      LiteralUnits(b);
    case Escape(b) =>
      SkipEscape(b, tail);
      LiteralUnits(b);
    case Hex(digits) =>
      assert s[2..][..4] == digits[..4] && s[6..] == tail;
    WellFormedSkip(CharUnits(c), Units(chars));
  }

  /** A token ends with its quote, with the text, with a backslash that ends the text, or
      where a `\u` lacks its digits. */
  predicate TokenEnd(end: seq<Byte>) {
    end == [] || end[0] == QUOTE || end == [BACKSLASH] || BadEscape(end)
  }

  predicate BadEscape(s: seq<Byte>) {
    |s| >= 2 && s[0] == BACKSLASH && s[1] == LETTER_U && CodeUnit(s[2..]).None?
  }

  /** A high surrogate escape must be followed at once by a low one. */
  lemma HighChar(c: Char, chars: seq<Char>, end: seq<Byte>)
    requires ValidChar(c) && (forall i :: 0 <= i < |chars| ==> ValidChar(chars[i]))
    requires HighEscape(c) && (chars == [] || !LowEscape(chars[0])) && TokenEnd(end)
    ensures !Accepts(CharBytes(c) + (CharsBytes(chars) + end), true)
    ensures !WellFormed(CharUnits(c) + Units(chars))
  {
    NextUnit(chars);
    LoneHigh(CodeUnit(c.digits).value, Units(chars));
    NotLowEscape(chars, end);
    HighRefused(c, CharsBytes(chars) + end);
  }

  predicate StartsLow(next: seq<Byte>) {
    && |next| >= 6 && next[0] == BACKSLASH && next[1] == LETTER_U
    && CodeUnit(next[2..]).Some? && LowSurrogate(CodeUnit(next[2..]).value)
  }

  lemma HighRefused(c: Char, next: seq<Byte>)
    requires ValidChar(c) && HighEscape(c) && !StartsLow(next)
    ensures !Accepts(CharBytes(c) + next, true)
  {
    var s := CharBytes(c) + next;
    assert s[2..][..4] == c.digits[..4] && s[6..] == next;
    if |s| >= 12 {
      assert s[6] == next[0] && s[7] == next[1] && s[8..] == next[2..];
    }
  }

  lemma NotLowEscape(chars: seq<Char>, end: seq<Byte>)
    requires forall i :: 0 <= i < |chars| ==> ValidChar(chars[i])
    requires (chars == [] || !LowEscape(chars[0])) && TokenEnd(end)
    ensures !StartsLow(CharsBytes(chars) + end)
  {
    var next := CharsBytes(chars) + end;
    if chars != [] {
      var c := chars[0];
      assert ValidChar(c);
      Regroup(CharBytes(c), CharsBytes(chars[1..]), end);
      if c.Hex? {
        assert next[2..][..4] == c.digits[..4];
      } else if c.Literal? {
        assert next[0] == c.bytes[0] && c.bytes[0] in c.bytes;
      }
    } else {
      assert next == end;
    }
  }

  /** The characters of a token pass exactly when they denote UTF-16 without unpaired
      surrogates, whether the token is closed or the text ends in it. */
  lemma {:induction false} TokenAccepted(chars: seq<Char>, end: seq<Byte>)
    requires (forall i :: 0 <= i < |chars| ==> ValidChar(chars[i])) && TokenEnd(end)
    ensures Accepts(CharsBytes(chars) + end, true) <==> WellFormed(Units(chars)) && Accepts(end, true)
    decreases |chars|
  {
    if chars == [] {
      assert [] + end == end;
    } else {
      var c, rest := chars[0], chars[1..];
      assert ValidChar(c);
      var after := CharsBytes(rest) + end;
      Regroup(CharBytes(c), CharsBytes(rest), end);
      if LowEscape(c) {
        LowChar(c, rest, after);
      } else if !HighEscape(c) {
        OrdinaryChar(c, rest, after);
        TokenAccepted(rest, end);
      } else if rest != [] && LowEscape(rest[0]) {
        PairChars(c, rest, end);
        TokenAccepted(rest[1..], end);
      } else {
        HighChar(c, rest, end);
      }
    }
  }

  lemma LowChar(c: Char, chars: seq<Char>, after: seq<Byte>)
    requires ValidChar(c) && LowEscape(c) && forall i :: 0 <= i < |chars| ==> ValidChar(chars[i])
    ensures !Accepts(CharBytes(c) + after, true) && !WellFormed(CharUnits(c) + Units(chars))
  {
    var s := CharBytes(c) + after;
    assert s[2..][..4] == c.digits[..4];
  }

  lemma PairChars(c: Char, rest: seq<Char>, end: seq<Byte>)
    requires ValidChar(c) && HighEscape(c) && rest != [] && LowEscape(rest[0]) &&
             forall i :: 0 <= i < |rest| ==> ValidChar(rest[i])
    ensures Accepts(CharBytes(c) + (CharsBytes(rest) + end), true) <==> Accepts(CharsBytes(rest[1..]) + end, true)
    ensures WellFormed(CharUnits(c) + Units(rest)) <==> WellFormed(Units(rest[1..]))
  {
    var d := rest[0];
    assert ValidChar(d);
    PairAccepted(c, d, CharsBytes(rest[1..]) + end);
    Regroup(CharBytes(d), CharsBytes(rest[1..]), end);
    PairUnits(CharUnits(c), CharUnits(d), Units(rest[1..]));
  }

  lemma Regroup(a: seq<Byte>, b: seq<Byte>, c: seq<Byte>)
    ensures (a + b) + c == a + (b + c)
  {
  }

  lemma PairUnits(high: seq<Unit>, low: seq<Unit>, rest: seq<Unit>)
    requires |high| == 1 && |low| == 1 && HighSurrogate(high[0]) && LowSurrogate(low[0])
    ensures WellFormed(high + (low + rest)) <==> WellFormed(rest)
  {
    assert high + (low + rest) == (high + low) + rest;
    WellFormedSkip(high + low, rest);
  }

  lemma PairAccepted(c: Char, d: Char, last: seq<Byte>)
    requires ValidChar(c) && ValidChar(d) && HighEscape(c) && LowEscape(d)
    ensures Accepts(CharBytes(c) + (CharBytes(d) + last), true) <==> Accepts(last, true)
  {
    var s := CharBytes(c) + (CharBytes(d) + last);
    assert s[6] == BACKSLASH && s[7] == LETTER_U && s[12..] == last;
    assert s[2..][..4] == c.digits[..4];
    assert s[8..][..4] == d.digits[..4];
  }

  predicate TokensWellFormed(pieces: seq<Piece>)
    requires forall i :: 0 <= i < |pieces| ==> ValidPiece(pieces[i])
  {
    pieces == [] ||
    (assert ValidPiece(pieces[0]);
     (pieces[0].Token? ==> WellFormed(Units(pieces[0].chars))) && TokensWellFormed(pieces[1..]))
  }

  predicate EndingWellFormed(e: Ending)
    requires ValidEnding(e)
  {
    e.Outside? || (!e.Malformed? && WellFormed(Units(e.chars)))
  }

  lemma RestAccepted(e: Ending)
    requires ValidEnding(e)
    ensures TokenEnd(Rest(e)) && (Accepts(Rest(e), true) <==> !e.Malformed?)
  {
    if e.Malformed? {
      assert Rest(e)[2..] == e.digits;
    }
  }

  lemma OpeningQuote(inside: seq<Byte>, rest: seq<Byte>)
    ensures Accepts([QUOTE] + inside + rest, false) <==> Accepts(inside + rest, true)
  {
    Regroup([QUOTE], inside, rest);
    assert ([QUOTE] + (inside + rest))[1..] == inside + rest;
  }

  lemma EndingAccepted(e: Ending)
    requires ValidEnding(e)
    ensures Accepts(RenderEnding(e), false) <==> EndingWellFormed(e)
  {
    if !e.Outside? {
      OpeningQuote(CharsBytes(e.chars), Rest(e));
      RestAccepted(e);
      TokenAccepted(e.chars, Rest(e));
    }
  }

  /** A text in pieces passes exactly when every string token in it, property names
      included, denotes UTF-16 without unpaired surrogates, the one it may end in
      included, and no `\u` lacks its digits. */
  lemma {:induction false} TextAccepted(pieces: seq<Piece>, e: Ending)
    requires (forall i :: 0 <= i < |pieces| ==> ValidPiece(pieces[i])) && ValidEnding(e)
    ensures Accepts(Render(pieces) + RenderEnding(e), false) <==> TokensWellFormed(pieces) && EndingWellFormed(e)
    decreases |pieces|
  {
    if pieces == [] {
      assert [] + RenderEnding(e) == RenderEnding(e);
      EndingAccepted(e);
    } else {
      var p, tail := pieces[0], Render(pieces[1..]) + RenderEnding(e);
      assert ValidPiece(p);
      TextAccepted(pieces[1..], e);
      Regroup(PieceBytes(p), Render(pieces[1..]), RenderEnding(e));
      match p
      case Plain(b) => SkipPlain(b, tail, false);
      case Token(chars) =>
        QuotedToken(chars, tail);
        TokenAccepted(chars, [QUOTE] + tail);
        assert ([QUOTE] + tail)[1..] == tail;
    }
  }

  // ---------- every text comes in such pieces ----------

  lemma AsciiStep(s: seq<Byte>)
    requires ValidUtf8(s) && s != [] && s[0] < 0x80
    ensures ValidUtf8(s[1..])
  {
  }

  lemma LeadPrefix(s: seq<Byte>)
    requires s != [] && LeadLength(s) > 0
    ensures LeadLength(s[..LeadLength(s)]) == LeadLength(s)
  {
    var n := LeadLength(s);
    var t := s[..n];
    assert |t| == n && t[0] == s[0];
    assert n >= 2 ==> t[1] == s[1];
    assert n >= 3 ==> t[2] == s[2];
    assert n >= 4 ==> t[3] == s[3];
  }

  lemma SplitAt(s: seq<Byte>, n: nat)
    requires n <= |s|
    ensures s == s[..n] + s[n..]
  {
  }

  /** A valid text is its first code point and a valid text. */
  lemma FirstPoint(s: seq<Byte>) returns (b: seq<Byte>, rest: seq<Byte>)
    requires ValidUtf8(s) && s != []
    ensures s == b + rest && b != [] && LeadLength(b) == |b| && ValidUtf8(rest)
  {
    var n := LeadLength(s);
    b, rest := s[..n], s[n..];
    SplitAt(s, n);
    LeadPrefix(s);
  }

  lemma HexAscii(s: seq<Byte>)
    requires CodeUnit(s).Some?
    ensures |s| >= 4 && s[0] < 0x80 && s[1] < 0x80 && s[2] < 0x80 && s[3] < 0x80
  {
    var t := s[..4];
    assert t[..3][..2] == t[..2] && t[..2][..1] == t[..1] && t[..1][..0] == [];
    assert HexValue(t).Some? && HexValue(t[..3]).Some? && HexValue(t[..2]).Some? && HexValue(t[..1]).Some?;
  }

  lemma {:induction false} AsciiPrefix(s: seq<Byte>, n: nat)
    requires ValidUtf8(s) && n <= |s| && forall i :: 0 <= i < n ==> s[i] < 0x80
    ensures ValidUtf8(s[n..])
    decreases n
  {
    if n == 0 {
      assert s[0..] == s;
    } else {
      AsciiStep(s);
      AsciiPrefix(s[1..], n - 1);
      assert s[1..][n - 1..] == s[n..];
    }
  }

  lemma HexStep(s: seq<Byte>)
    requires ValidUtf8(s) && |s| >= 6 && s[0] == BACKSLASH && s[1] == LETTER_U && CodeUnit(s[2..]).Some?
    ensures ValidUtf8(s[6..]) && s == [BACKSLASH, LETTER_U] + s[2..6] + s[6..]
    ensures CodeUnit(s[2..6]) == CodeUnit(s[2..])
  {
    HexAscii(s[2..]);
    AsciiPrefix(s, 6);
    assert s[2..6][..4] == s[2..][..4];
  }

  /** The first character of the inside of a string, when there is a complete one. */
  lemma FirstChar(s: seq<Byte>) returns (c: Char)
    requires ValidUtf8(s) && !TokenEnd(s)
    ensures ValidChar(c) && 0 < |CharBytes(c)| <= |s| && s == CharBytes(c) + s[|CharBytes(c)|..] &&
            ValidUtf8(s[|CharBytes(c)|..])
  {
    if s[0] != BACKSLASH {
      var b, rest := FirstPoint(s);
      TrailBytes(b);
      assert s[|b|..] == rest;
      assert b == [b[0]] + b[1..];
      c := Literal(b);
    } else if s[1] == LETTER_U {
      HexStep(s);
      c := Hex(s[2..6]);
      assert |CharBytes(c)| == 6;
    } else {
      AsciiStep(s);
      var b, rest := FirstPoint(s[1..]);
      c := Escape(b);
      assert s == [BACKSLASH] + s[1..];
      Regroup([BACKSLASH], b, rest);
      assert s[|CharBytes(c)|..] == rest;
    }
  }

  /** The inside of a string: its characters, and the end they lead to. */
  lemma {:induction false} SplitToken(s: seq<Byte>) returns (chars: seq<Char>, end: seq<Byte>)
    requires ValidUtf8(s)
    ensures (forall i :: 0 <= i < |chars| ==> ValidChar(chars[i])) && TokenEnd(end) && |end| <= |s|
    ensures s == CharsBytes(chars) + end && ValidUtf8(end)
    decreases |s|
  {
    if TokenEnd(s) {
      chars, end := [], s;
      assert [] + s == s;
    } else {
      var c := FirstChar(s);
      var n := |CharBytes(c)|;
      var rest;
      rest, end := SplitToken(s[n..]);
      chars := [c] + rest;
      assert chars[1..] == rest;
      Regroup(CharBytes(c), CharsBytes(rest), end);
    }
  }

  lemma UnclosedEnding(chars: seq<Char>, end: seq<Byte>) returns (e: Ending)
    requires (forall i :: 0 <= i < |chars| ==> ValidChar(chars[i])) && TokenEnd(end)
    requires end == [] || end[0] != QUOTE
    ensures ValidEnding(e) && !e.Outside? && e.chars == chars && Rest(e) == end
  {
    if end == [] {
      e := Open(chars);
    } else if end == [BACKSLASH] {
      e := Cut(chars);
    } else {
      e := Malformed(chars, end[2..]);
      assert end == [BACKSLASH, LETTER_U] + end[2..];
    }
  }

  lemma ClosedToken(chars: seq<Char>, end: seq<Byte>)
    requires end != [] && end[0] == QUOTE
    ensures [QUOTE] + (CharsBytes(chars) + end) == PieceBytes(Token(chars)) + end[1..]
  {
    assert end == [QUOTE] + end[1..];
    Regroup([QUOTE], CharsBytes(chars), end);
    Regroup([QUOTE] + CharsBytes(chars), [QUOTE], end[1..]);
  }

  /** A text that begins with a quote: a closed token and what follows, or an ending. */
  lemma SplitQuote(s: seq<Byte>) returns (chars: seq<Char>, tail: Option<seq<Byte>>, e: Ending)
    requires ValidUtf8(s) && s != [] && s[0] == QUOTE
    ensures forall i :: 0 <= i < |chars| ==> ValidChar(chars[i])
    ensures tail.Some? ==> ValidUtf8(tail.value) && |tail.value| < |s| && s == PieceBytes(Token(chars)) + tail.value
    ensures tail.None? ==> ValidEnding(e) && s == RenderEnding(e)
  {
    AsciiStep(s);
    var end;
    chars, end := SplitToken(s[1..]);
    assert s == [QUOTE] + s[1..];
    tail, e := None, Outside;
    if end != [] && end[0] == QUOTE {
      AsciiStep(end);
      tail := Some(end[1..]);
      ClosedToken(chars, end);
    } else {
      e := UnclosedEnding(chars, end);
      Regroup([QUOTE], CharsBytes(chars), end);
    }
  }

  /** Every valid UTF-8 text splits into pieces and an ending. */
  lemma {:induction false} TextSplits(s: seq<Byte>) returns (pieces: seq<Piece>, e: Ending)
    requires ValidUtf8(s)
    ensures (forall i :: 0 <= i < |pieces| ==> ValidPiece(pieces[i])) && ValidEnding(e)
    ensures s == Render(pieces) + RenderEnding(e)
    decreases |s|
  {
    if s == [] {
      pieces, e := [], Outside;
    } else if s[0] == QUOTE {
      var chars, tail, end := SplitQuote(s);
      if tail.None? {
        pieces, e := [], end;
        assert [] + RenderEnding(e) == RenderEnding(e);
      } else {
        var rest;
        rest, e := TextSplits(tail.value);
        pieces := [Token(chars)] + rest;
        assert pieces[1..] == rest;
        Regroup(PieceBytes(Token(chars)), Render(rest), RenderEnding(e));
      }
    } else {
      var b, tail := FirstPoint(s);
      TrailBytes(b);
      assert b == [s[0]] + b[1..];
      var rest;
      rest, e := TextSplits(tail);
      pieces := [Plain(b)] + rest;
      assert pieces[1..] == rest;
      Regroup(b, Render(rest), RenderEnding(e));
    }
  }

  /** So the scan decides every valid UTF-8 text: it accepts exactly those in whose pieces
      every string token is well formed and no `\u` lacks its digits. */
  lemma EveryTextDecided(data: seq<Byte>) returns (pieces: seq<Piece>, e: Ending)
    requires ValidUtf8(data)
    ensures (forall i :: 0 <= i < |pieces| ==> ValidPiece(pieces[i])) && ValidEnding(e)
    ensures data == Render(pieces) + RenderEnding(e)
    ensures Accepts(data, false) <==> TokensWellFormed(pieces) && EndingWellFormed(e)
  {
    pieces, e := TextSplits(data);
    TextAccepted(pieces, e);
  }

  lemma QuotedToken(chars: seq<Char>, tail: seq<Byte>)
    ensures Accepts([QUOTE] + CharsBytes(chars) + [QUOTE] + tail, false) <==>
              Accepts(CharsBytes(chars) + ([QUOTE] + tail), true)
  {
    var s := [QUOTE] + CharsBytes(chars) + [QUOTE] + tail;
    assert s[0] == QUOTE && s[1..] == CharsBytes(chars) + ([QUOTE] + tail);
  }
}
