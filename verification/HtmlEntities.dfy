/** The decoder for escaped search results (web/src/routes/api/youtube-search/+server.ts:49-70). Text is a
    sequence of UTF-16 code units, as in JavaScript. */
module HtmlEntities {

  import opened Wrappers

  const MAX_CODE_POINT: nat := 0x10_FFFF

  type Unit = n: int | 0 <= n < 0x1_0000
  type CodePoint = n: int | 0 <= n <= 0x10_FFFF
  type Text = seq<Unit>

  const AMP: Unit := '&' as int
  const HASH: Unit := '#' as int
  const SEMICOLON: Unit := ';' as int
  const LOWER_X: Unit := 'x' as int
  const UPPER_X: Unit := 'X' as int

  // ---- the pattern &(#\d+|#x[0-9a-fA-F]+|[a-zA-Z0-9]+); ----

  datatype Class = DecimalDigit | HexDigit | Alphanumeric

  predicate Within(u: Unit, lo: char, hi: char) {
    lo as int <= u <= hi as int
  }

  predicate In(u: Unit, c: Class) {
    match c
    case DecimalDigit => Within(u, '0', '9')
    case HexDigit => Within(u, '0', '9') || Within(u, 'a', 'f') || Within(u, 'A', 'F')
    case Alphanumeric => Within(u, '0', '9') || Within(u, 'a', 'z') || Within(u, 'A', 'Z')
  }

  /** How many units at the front of `s` are in the class. */
  function Span(s: Text, c: Class): (n: nat)
    ensures n <= |s|
  {
    if s == [] || !In(s[0], c) then 0 else 1 + Span(s[1..], c)
  }

  /** The length of `start` units, one or more of the class, and a semicolon; 0 if that is not what `s` begins with. */
  function Closed(s: Text, start: nat, c: Class): (n: nat)
    requires start <= |s|
    ensures n <= |s|
    ensures n > 0 ==> n > start + 1
  {
    var k := Span(s[start..], c);
    if k > 0 && start + k < |s| && s[start + k] == SEMICOLON then start + k + 1 else 0
  }

  /** The length of the match that begins `s`, or 0. */
  function MatchLength(s: Text): (n: nat)
    ensures n <= |s|
    ensures n > 0 ==> n > 2 && s[0] == AMP
    ensures n > 0 && s[1] == HASH ==> n > 3
    ensures n > 0 && s[1] == HASH && s[2] == LOWER_X ==> n > 4
  {
    if |s| < 2 || s[0] != AMP then 0
    else if s[1] != HASH then Closed(s, 1, Alphanumeric)
    else if |s| > 2 && s[2] == LOWER_X then Closed(s, 3, HexDigit)
    else Closed(s, 2, DecimalDigit)
  }

  predicate AllIn(s: Text, c: Class) {
    forall i | 0 <= i < |s| :: In(s[i], c)
  }

  /** The whole of `m` is a reference: an ampersand, a name or a number of either kind, and a semicolon. */
  predicate IsReference(m: Text) {
    && |m| > 2 && m[0] == AMP && m[|m| - 1] == SEMICOLON
    && var b := m[1..|m| - 1];
    || AllIn(b, Alphanumeric)
    || (|b| > 1 && b[0] == HASH && AllIn(b[1..], DecimalDigit))
    || (|b| > 2 && b[0] == HASH && b[1] == LOWER_X && AllIn(b[2..], HexDigit))
  }

  // ---- what a match is replaced with ----

  function DigitValue(u: Unit): nat {
    if Within(u, '0', '9') then u - '0' as int
    else if Within(u, 'a', 'f') then u - 'a' as int + 10
    else if Within(u, 'A', 'F') then u - 'A' as int + 10
    else 0
  }

  function ParseInt(s: Text, radix: nat): nat {
    if s == [] then 0 else ParseInt(s[..|s| - 1], radix) * radix + DigitValue(s[|s| - 1])
  }

  function FromCodePoint(c: CodePoint): Text {
    if c < 0x1_0000 then [c] else [0xD800 + (c - 0x1_0000) / 0x400, 0xDC00 + (c - 0x1_0000) % 0x400]
  }

  const AMP_NAME: Text := ['a' as int, 'm' as int, 'p' as int]
  const LT_NAME: Text := ['l' as int, 't' as int]
  const GT_NAME: Text := ['g' as int, 't' as int]
  const QUOT_NAME: Text := ['q' as int, 'u' as int, 'o' as int, 't' as int]
  const APOS_NAME: Text := ['a' as int, 'p' as int, 'o' as int, 's' as int]

  function NamedEntity(name: Text): Option<Unit> {
    if name == AMP_NAME then Some(AMP)
    else if name == LT_NAME then Some('<' as int)
    else if name == GT_NAME then Some('>' as int)
    else if name == QUOT_NAME then Some('\"' as int)
    else if name == APOS_NAME then Some('\'' as int)
    else None
  }

  /** The number a numeric entity stands for. */
  function Code(entity: Text): nat
    requires |entity| > 1
  {
    if entity[1] == LOWER_X || entity[1] == UPPER_X then ParseInt(entity[2..], 16) else ParseInt(entity[1..], 10)
  }

  /** The text that replaces a match, `None` for the exception thrown when the number is no code point. */
  function Replacement(found: Text): Option<Text>
    requires |found| > 2 && (found[1] == HASH ==> |found| > 3)
  {
    var entity := found[1..|found| - 1];
    if entity[0] == HASH then
      if Code(entity) <= MAX_CODE_POINT then Some(FromCodePoint(Code(entity))) else None
    else
      match NamedEntity(entity)
      case Some(u) => Some([u])
      case None => Some(found)
  }

  function Join(a: Option<Text>, b: Option<Text>): Option<Text> {
    if a.Some? && b.Some? then Some(a.value + b.value) else None
  }

  /** One pass from the left; what has been replaced is not looked at again. */
  function Decode(text: Text): Option<Text>
    decreases |text|
  {
    if text == [] then Some([])
    else
      var n := MatchLength(text);
      if n == 0 then Join(Some([text[0]]), Decode(text[1..]))
      else Join(Replacement(text[..n]), Decode(text[n..]))
  }

  // ---- encoding: sections 4.1 and 4.6 of XML 1.0 ----

  /** One way of writing something down. `width` pads with leading zeros; `caps` says which of the last
      hexadecimal digits are written in upper case. */
  datatype Piece =
    | Itself(unit: Unit)
    | Name(unit: Unit)
    | Decimal(code: CodePoint, width: nat)
    | Hexadecimal(code: CodePoint, width: nat, caps: seq<bool>)
    // a reference by a name that is none of the five
    | Unknown(name: Text)

  /** The five names of XML 1.0, letter by letter. */
  predicate Predefined(name: Text) {
    || name == [0x61, 0x6D, 0x70]
    || name == [0x6C, 0x74]
    || name == [0x67, 0x74]
    || name == [0x71, 0x75, 0x6F, 0x74]
    || name == [0x61, 0x70, 0x6F, 0x73]
  }

  /** They stand for & < > " and '. */
  lemma PredefinedNames()
    ensures NamedEntity([0x61, 0x6D, 0x70]) == Some(0x26) && NamedEntity([0x6C, 0x74]) == Some(0x3C)
    ensures NamedEntity([0x67, 0x74]) == Some(0x3E) && NamedEntity([0x71, 0x75, 0x6F, 0x74]) == Some(0x22)
    ensures NamedEntity([0x61, 0x70, 0x6F, 0x73]) == Some(0x27)
    ensures forall name | !Predefined(name) :: NamedEntity(name).None?
  {
  }

  /** The predefined name of a character, if it has one. */
  function NameOf(u: Unit): Text {
    if u == AMP then AMP_NAME
    else if u == '<' as int then LT_NAME
    else if u == '>' as int then GT_NAME
    else if u == '\"' as int then QUOT_NAME
    else if u == '\'' as int then APOS_NAME
    else []
  }

  predicate Legal(p: Piece) {
    match p
    case Itself(u) => u != AMP
    case Name(u) => NameOf(u) != []
    case Unknown(name) => name != [] && AllIn(name, Alphanumeric) && !Predefined(name)
    case _ => true
  }

  function Glyph(d: nat, cap: bool): Unit
    requires d < 16
  {
    if d < 10 then '0' as int + d else if cap then 'A' as int + (d - 10) else 'a' as int + (d - 10)
  }

  function Numeral(n: nat, radix: nat, width: nat, caps: seq<bool>): (s: Text)
    requires radix == 10 || radix == 16
    ensures |s| > 0 && |s| >= width
    decreases n + width
  {
    var last := [Glyph(n % radix, caps != [] && caps[|caps| - 1])];
    if n < radix && width <= 1 then last
    else
      Numeral(n / radix, radix, if width == 0 then 0 else width - 1, if caps == [] then [] else caps[..|caps| - 1])
      + last
  }

  function Opening(p: Piece): Text
    requires !p.Itself?
  {
    match p
    case Name(_) => [AMP]
    case Decimal(_, _) => [AMP, HASH]
    case Hexadecimal(_, _, _) => [AMP, HASH, LOWER_X]
    case Unknown(_) => [AMP]
  }

  function Body(p: Piece): Text
    requires Legal(p) && !p.Itself?
  {
    match p
    case Name(u) => NameOf(u)
    case Decimal(c, w) => Numeral(c, 10, w, [])
    case Hexadecimal(c, w, caps) => Numeral(c, 16, w, caps)
    case Unknown(name) => name
  }

  function Write(p: Piece): Text
    requires Legal(p)
  {
    if p.Itself? then [p.unit] else Opening(p) + Body(p) + [SEMICOLON]
  }

  // what a piece stands for

  /** UTF-16: one unit is its own code point; a high surrogate and a low one are one of the others. */
  predicate ReadsAs(text: Text, c: CodePoint) {
    || (|text| == 1 && text[0] == c)
    || (|text| == 2
        && 0xD800 <= text[0] < 0xDC00 && 0xDC00 <= text[1] < 0xE000
        && var hi: int, lo: int := text[0], text[1]; 0x1_0000 + (hi - 0xD800) * 0x400 + (lo - 0xDC00) == c)
  }

  lemma ReadUniquely(a: Text, b: Text, c: CodePoint)
    requires ReadsAs(a, c) && ReadsAs(b, c)
    ensures a == b
  {
    if |a| == 2 {
      var ahi: int, alo: int, bhi: int, blo: int := a[0], a[1], b[0], b[1];
      assert (ahi - 0xD800) * 0x400 + (alo - 0xDC00) == (bhi - 0xD800) * 0x400 + (blo - 0xDC00);
      assert a[0] == b[0] && a[1] == b[1];
    }
  }

  predicate StandsFor(p: Piece, text: Text)
    requires Legal(p)
  {
    match p
    case Itself(u) => text == [u]
    case Name(u) => text == [u]
    case Decimal(c, _) => ReadsAs(text, c)
    case Hexadecimal(c, _, _) => ReadsAs(text, c)
    case Unknown(_) => text == Write(p)
  }

  /** How many units a piece stands for. */
  function Width(p: Piece): nat {
    match p
    case Decimal(c, _) => if c < 0x1_0000 then 1 else 2
    case Hexadecimal(c, _, _) => if c < 0x1_0000 then 1 else 2
    case Unknown(name) => |name| + 2
    case _ => 1
  }

  /** The text is what the pieces stand for, one after the other. */
  predicate Spells(ps: seq<Piece>, text: Text)
    requires AllLegal(ps)
  {
    if ps == [] then text == []
    else
      var n := Width(ps[0]);
      n <= |text| && StandsFor(ps[0], text[..n]) && Spells(ps[1..], text[n..])
  }

  lemma {:induction false} SpelledUniquely(ps: seq<Piece>, a: Text, b: Text)
    requires AllLegal(ps) && Spells(ps, a) && Spells(ps, b)
    ensures a == b
    decreases ps
  {
    if ps != [] {
      var n := Width(ps[0]);
      if ps[0].Decimal? || ps[0].Hexadecimal? { ReadUniquely(a[..n], b[..n], ps[0].code); }
      SpelledUniquely(ps[1..], a[n..], b[n..]);
      assert a == a[..n] + a[n..] && b == b[..n] + b[n..];
    }
  }

  function Meaning(p: Piece): Text
    requires Legal(p)
  {
    match p
    case Itself(u) => [u]
    case Name(u) => [u]
    case Decimal(c, _) => FromCodePoint(c)
    case Hexadecimal(c, _, _) => FromCodePoint(c)
    case Unknown(_) => Write(p)
  }

  /** Every code point, in the text that replaces a reference to it, reads as itself. */
  lemma FromCodePointReads(c: CodePoint)
    ensures ReadsAs(FromCodePoint(c), c) && |FromCodePoint(c)| == if c < 0x1_0000 then 1 else 2
  {
  }

  lemma MeaningStands(p: Piece)
    requires Legal(p)
    ensures StandsFor(p, Meaning(p)) && |Meaning(p)| == Width(p)
  {
    if p.Decimal? || p.Hexadecimal? { FromCodePointReads(p.code); }
  }

  predicate AllLegal(ps: seq<Piece>) {
    forall i | 0 <= i < |ps| :: Legal(ps[i])
  }

  function Encode(ps: seq<Piece>): Text
    requires AllLegal(ps)
  {
    if ps == [] then [] else Write(ps[0]) + Encode(ps[1..])
  }

  function Meant(ps: seq<Piece>): Text
    requires AllLegal(ps)
  {
    if ps == [] then [] else Meaning(ps[0]) + Meant(ps[1..])
  }

  // ---- numerals ----

  function RadixClass(radix: nat): Class {
    if radix == 16 then HexDigit else DecimalDigit
  }

  lemma DivisionSplits(n: nat, radix: nat)
    requires radix == 10 || radix == 16
    ensures n / radix * radix + n % radix == n
    ensures n / radix <= n && (n >= radix ==> n / radix < n)
  {
  }

  lemma GlyphIsRead(d: nat, cap: bool, radix: nat)
    requires d < radix && (radix == 10 || radix == 16)
    ensures DigitValue(Glyph(d, cap)) == d && In(Glyph(d, cap), RadixClass(radix))
  {
  }

  lemma OneDigitMore(s: Text, n: nat, radix: nat, cap: bool)
    requires radix == 10 || radix == 16
    requires AllIn(s, RadixClass(radix)) && ParseInt(s, radix) == n / radix
    ensures AllIn(s + [Glyph(n % radix, cap)], RadixClass(radix))
    ensures ParseInt(s + [Glyph(n % radix, cap)], radix) == n
  {
    GlyphIsRead(n % radix, cap, radix);
    DivisionSplits(n, radix);
    assert (s + [Glyph(n % radix, cap)])[..|s|] == s;
  }

  /** A numeral of either radix, padded or not and in either case, is read back as its number. */
  lemma {:induction false} NumeralIsReadBack(n: nat, radix: nat, width: nat, caps: seq<bool>)
    requires radix == 10 || radix == 16
    ensures AllIn(Numeral(n, radix, width, caps), RadixClass(radix))
    ensures ParseInt(Numeral(n, radix, width, caps), radix) == n
    decreases n + width
  {
    var cap := caps != [] && caps[|caps| - 1];
    DivisionSplits(n, radix);
    if n < radix && width <= 1 {
      OneDigitMore([], n, radix, cap);
      assert [] + [Glyph(n % radix, cap)] == [Glyph(n % radix, cap)];
    } else {
      var w, before := if width == 0 then 0 else width - 1, if caps == [] then [] else caps[..|caps| - 1];
      NumeralIsReadBack(n / radix, radix, w, before);
      OneDigitMore(Numeral(n / radix, radix, w, before), n, radix, cap);
    }
  }

  // ---- one reference at a time ----

  lemma {:induction false} SpanOfBody(body: Text, rest: Text, c: Class)
    requires AllIn(body, c)
    ensures Span(body + [SEMICOLON] + rest, c) == |body|
  {
    var s := body + [SEMICOLON] + rest;
    if body != [] {
      assert s[1..] == body[1..] + [SEMICOLON] + rest;
      SpanOfBody(body[1..], rest, c);
    }
  }

  lemma ClosedByBody(head: Text, body: Text, rest: Text, c: Class)
    requires body != [] && AllIn(body, c)
    ensures Closed(head + body + [SEMICOLON] + rest, |head|, c) == |head| + |body| + 1
  {
    var s := head + body + [SEMICOLON] + rest;
    assert s[|head|..] == body + [SEMICOLON] + rest;
    SpanOfBody(body, rest, c);
  }

  lemma {:induction false} SpanIsOfClass(s: Text, c: Class)
    ensures AllIn(s[..Span(s, c)], c)
  {
    if s != [] && In(s[0], c) {
      SpanIsOfClass(s[1..], c);
      assert forall i | 0 < i < Span(s, c) :: s[i] == s[1..][..Span(s[1..], c)][i - 1];
    }
  }

  lemma ClosedIsOfClass(s: Text, start: nat, c: Class)
    requires start <= |s| && Closed(s, start, c) > 0
    ensures var n := Closed(s, start, c); s[n - 1] == SEMICOLON && AllIn(s[start..n - 1], c)
  {
    SpanIsOfClass(s[start..], c);
    var k := Span(s[start..], c);
    assert s[start..][..k] == s[start..start + k];
  }

  lemma MatchIsReference(s: Text)
    requires MatchLength(s) > 0
    ensures IsReference(s[..MatchLength(s)])
  {
    var n := MatchLength(s);
    var m := s[..n];
    var b := m[1..n - 1];
    if s[1] != HASH {
      ClosedIsOfClass(s, 1, Alphanumeric);
      assert b == s[1..n - 1];
    } else if s[2] == LOWER_X {
      ClosedIsOfClass(s, 3, HexDigit);
      assert b[2..] == s[3..n - 1];
    } else {
      ClosedIsOfClass(s, 2, DecimalDigit);
      assert b[1..] == s[2..n - 1];
    }
  }

  lemma ReferenceMatches(m: Text, rest: Text)
    requires IsReference(m)
    ensures MatchLength(m + rest) == |m|
  {
    var b, s := m[1..|m| - 1], m + rest;
    if AllIn(b, Alphanumeric) {
      assert In(b[0], Alphanumeric) && s[1] == b[0];
      ClosedByBody([AMP], b, rest, Alphanumeric);
      assert s == [AMP] + b + [SEMICOLON] + rest;
    } else if |b| > 2 && b[1] == LOWER_X && AllIn(b[2..], HexDigit) {
      assert s[1] == b[0] && s[2] == b[1];
      ClosedByBody([AMP, HASH, LOWER_X], b[2..], rest, HexDigit);
      assert s == [AMP, HASH, LOWER_X] + b[2..] + [SEMICOLON] + rest;
    } else {
      assert s[1] == b[0] && s[2] == b[1] == b[1..][0] && In(b[1..][0], DecimalDigit);
      ClosedByBody([AMP, HASH], b[1..], rest, DecimalDigit);
      assert s == [AMP, HASH] + b[1..] + [SEMICOLON] + rest;
    }
  }

  /** A match is found exactly where the text begins with a reference, and is that reference. */
  lemma MatchIff(s: Text, n: nat)
    requires n > 0
    ensures MatchLength(s) == n <==> n <= |s| && IsReference(s[..n])
  {
    if MatchLength(s) == n { MatchIsReference(s); }
    if n <= |s| && IsReference(s[..n]) {
      ReferenceMatches(s[..n], s[n..]);
      assert s == s[..n] + s[n..];
    }
  }

  lemma NamesAreAlphanumeric(u: Unit)
    requires NameOf(u) != []
    ensures AllIn(NameOf(u), Alphanumeric) && NameOf(u)[0] != HASH
    ensures NamedEntity(NameOf(u)) == Some(u)
  {
  }

  function BodyClass(p: Piece): Class {
    if p.Decimal? then DecimalDigit else if p.Hexadecimal? then HexDigit else Alphanumeric
  }

  lemma BodyIsOfItsClass(p: Piece)
    requires Legal(p) && !p.Itself?
    ensures Body(p) != [] && AllIn(Body(p), BodyClass(p))
    ensures p.Name? || p.Unknown? ==> Body(p)[0] != HASH
    ensures p.Decimal? ==> Body(p)[0] != LOWER_X
  {
    match p
    case Name(u) => NamesAreAlphanumeric(u);
    case Decimal(c, w) => NumeralIsReadBack(c, 10, w, []);
    case Hexadecimal(c, w, caps) => NumeralIsReadBack(c, 16, w, caps);
    case Unknown(name) => assert In(name[0], Alphanumeric);
  }

  lemma WrittenMatches(p: Piece, rest: Text)
    requires Legal(p) && !p.Itself?
    ensures MatchLength(Write(p) + rest) == |Write(p)|
  {
    BodyIsOfItsClass(p);
    ClosedByBody(Opening(p), Body(p), rest, BodyClass(p));
    var s := Write(p) + rest;
    assert s[|Opening(p)|] == Body(p)[0];
    assert forall i | 0 <= i < |Opening(p)| :: s[i] == Opening(p)[i];
  }

  lemma WrittenIsReplaced(p: Piece)
    requires Legal(p) && !p.Itself?
    requires |Write(p)| > 2 && (Write(p)[1] == HASH ==> |Write(p)| > 3)
    ensures Replacement(Write(p)) == Some(Meaning(p))
  {
    BodyIsOfItsClass(p);
    var found, entity := Write(p), Opening(p)[1..] + Body(p);
    assert found[1..|found| - 1] == entity;
    match p
    case Name(u) =>
      NamesAreAlphanumeric(u);
      assert entity == NameOf(u);
    case Decimal(c, w) =>
      NumeralIsReadBack(c, 10, w, []);
      DigitsAreNotX(Body(p)[0]);
      assert entity[1] == Body(p)[0] && entity[1..] == Body(p);
    case Hexadecimal(c, w, caps) =>
      NumeralIsReadBack(c, 16, w, caps);
      assert entity[2..] == Body(p);
    case Unknown(name) =>
      assert entity == name;
      PredefinedNames();
  }

  lemma DigitsAreNotX(u: Unit)
    requires In(u, DecimalDigit)
    ensures u != LOWER_X && u != UPPER_X && u != HASH
  {
  }

  /** Whatever comes after it, a written piece is decoded to what it means. */
  lemma PieceDecodes(p: Piece, rest: Text)
    requires Legal(p)
    ensures Decode(Write(p) + rest) == Join(Some(Meaning(p)), Decode(rest))
  {
    var s := Write(p) + rest;
    if p.Itself? {
      assert s[1..] == rest;
    } else {
      WrittenMatches(p, rest);
      var n := |Write(p)|;
      assert s[..n] == Write(p) && s[n..] == rest;
      WrittenIsReplaced(p);
    }
  }

  // ---- the laws ----

  lemma {:induction false} DecodesToMeant(ps: seq<Piece>)
    requires AllLegal(ps)
    ensures Decode(Encode(ps)) == Some(Meant(ps))
  {
    if ps != [] {
      PieceDecodes(ps[0], Encode(ps[1..]));
      DecodesToMeant(ps[1..]);
    }
  }

  lemma {:induction false} MeantIsSpelled(ps: seq<Piece>)
    requires AllLegal(ps)
    ensures Spells(ps, Meant(ps))
  {
    if ps != [] {
      MeaningStands(ps[0]);
      MeantIsSpelled(ps[1..]);
      var n := Width(ps[0]);
      assert Meant(ps)[..n] == Meaning(ps[0]) && Meant(ps)[n..] == Meant(ps[1..]);
    }
  }

  /** Whatever mix of spellings a text is encoded with, unknown references among them, decoding gives back the one
      text it stands for. */
  lemma DecodingUndoesEncoding(ps: seq<Piece>, text: Text)
    requires AllLegal(ps)
    ensures Decode(Encode(ps)) == Some(text) <==> Spells(ps, text)
  {
    DecodesToMeant(ps);
    MeantIsSpelled(ps);
    if Spells(ps, text) { SpelledUniquely(ps, text, Meant(ps)); }
  }

  /** A text with every ampersand written `&amp;` and nothing else changed. */
  function Escaped(text: Text): (ps: seq<Piece>)
    ensures AllLegal(ps)
  {
    if text == [] then [] else [if text[0] == AMP then Name(AMP) else Itself(text[0])] + Escaped(text[1..])
  }

  lemma {:induction false} EscapedMeansItself(text: Text)
    ensures Meant(Escaped(text)) == text
  {
    if text != [] {
      EscapedMeansItself(text[1..]);
    }
  }

  /** Nothing is decoded twice: any text at all, one full of references included, comes back from its
      escaped form as it was. */
  lemma NeverDecodedTwice(text: Text)
    ensures Decode(Encode(Escaped(text))) == Some(text)
  {
    DecodesToMeant(Escaped(text));
    EscapedMeansItself(text);
  }

  /** A reference the decoder understands begins `s`. */
  predicate Understood(s: Text) {
    var n := MatchLength(s);
    n > 0 && (s[1] == HASH || NamedEntity(s[1..n - 1]).Some?)
  }

  lemma UnknownStays(text: Text)
    requires MatchLength(text) > 0 && !Understood(text)
    ensures Replacement(text[..MatchLength(text)]) == Some(text[..MatchLength(text)])
  {
    var n := MatchLength(text);
    assert text[..n][1..n - 1] == text[1..n - 1];
  }

  predicate NothingUnderstood(text: Text) {
    forall i | 0 <= i < |text| :: !Understood(text[i..])
  }

  lemma NothingUnderstoodLater(text: Text, k: nat)
    requires NothingUnderstood(text) && k <= |text|
    ensures NothingUnderstood(text[k..])
  {
    forall i | 0 <= i < |text[k..]| ensures !Understood(text[k..][i..]) {
      assert text[k..][i..] == text[k + i..];
    }
  }

  lemma UntouchedFirst(text: Text)
    requires text != [] && !Understood(text)
    ensures var k := if MatchLength(text) == 0 then 1 else MatchLength(text);
            Decode(text) == Join(Some(text[..k]), Decode(text[k..]))
  {
    if MatchLength(text) == 0 {
      assert [text[0]] == text[..1];
    } else {
      UnknownStays(text);
    }
  }

  /** What holds no reference the decoder understands is left exactly as it is. */
  lemma {:induction false} NotUnderstoodNotTouched(text: Text)
    requires NothingUnderstood(text)
    ensures Decode(text) == Some(text)
    decreases |text|
  {
    if text != [] {
      assert text[0..] == text && !Understood(text[0..]);
      var k := if MatchLength(text) == 0 then 1 else MatchLength(text);
      UntouchedFirst(text);
      NothingUnderstoodLater(text, k);
      NotUnderstoodNotTouched(text[k..]);
      assert text[..k] + text[k..] == text;
    }
  }

  /** `s` begins with a numeric reference to no code point. */
  predicate OutOfRange(s: Text) {
    var n := MatchLength(s);
    n > 0 && s[1] == HASH && Code(s[1..n - 1]) > MAX_CODE_POINT
  }

  lemma {:induction false} NoAmpersandInSpan(s: Text, c: Class, i: nat)
    requires i < Span(s, c)
    ensures s[i] != AMP
  {
    if i > 0 {
      NoAmpersandInSpan(s[1..], c, i - 1);
    }
  }

  /** References do not nest: inside one, no other begins. */
  lemma NoMatchInsideMatch(s: Text, i: nat)
    requires 0 < i < MatchLength(s)
    ensures MatchLength(s[i..]) == 0
  {
    var start, c :=
      if s[1] != HASH then 1 else if s[2] == LOWER_X then 3 else 2,
      if s[1] != HASH then Alphanumeric else if s[2] == LOWER_X then HexDigit else DecimalDigit;
    if start <= i < MatchLength(s) - 1 {
      NoAmpersandInSpan(s[start..], c, i - start);
    }
  }

  predicate OutOfRangeAt(text: Text, i: nat) {
    i < |text| && OutOfRange(text[i..])
  }

  ghost predicate Throws(text: Text) {
    exists i: nat :: OutOfRangeAt(text, i)
  }

  lemma ThrowsLater(text: Text, k: nat)
    requires k <= |text|
    requires forall i: nat | i < k :: !OutOfRangeAt(text, i)
    ensures Throws(text) <==> Throws(text[k..])
  {
    forall i: nat | i + k < |text| ensures OutOfRangeAt(text, i + k) <==> OutOfRangeAt(text[k..], i) {
      assert text[k..][i..] == text[i + k..];
    }
    if Throws(text) {
      var i: nat :| OutOfRangeAt(text, i);
      assert OutOfRangeAt(text[k..], i - k);
    }
    if Throws(text[k..]) {
      var i: nat :| OutOfRangeAt(text[k..], i);
      assert OutOfRangeAt(text, i + k);
    }
  }

  lemma NoneOutOfRangeInside(text: Text, k: nat)
    requires text != [] && !OutOfRange(text)
    requires k == if MatchLength(text) == 0 then 1 else MatchLength(text)
    ensures Throws(text) <==> Throws(text[k..])
  {
    assert text[0..] == text;
    forall i: nat | i < k ensures !OutOfRangeAt(text, i) {
      if i > 0 { NoMatchInsideMatch(text, i); }
    }
    ThrowsLater(text, k);
  }

  lemma ReplacementFailsIff(text: Text)
    requires MatchLength(text) > 0
    ensures Replacement(text[..MatchLength(text)]).None? <==> OutOfRange(text)
  {
    var n := MatchLength(text);
    assert text[..n][1..n - 1] == text[1..n - 1];
  }

  /** Decoding throws exactly on the texts that hold a numeric reference past the last code point. */
  lemma {:induction false} ThrowsIff(text: Text)
    ensures Decode(text).None? <==> Throws(text)
    decreases |text|
  {
    if text != [] {
      var n := MatchLength(text);
      var k := if n == 0 then 1 else n;
      if n > 0 { ReplacementFailsIff(text); }
      if OutOfRange(text) {
        assert text[0..] == text;
        assert OutOfRangeAt(text, 0);
      } else {
        NoneOutOfRangeInside(text, k);
        ThrowsIff(text[k..]);
      }
    }
  }
}
