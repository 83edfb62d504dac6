/** `decodeURIComponent` of ECMAScript (the URI handling functions of
    ECMA-262: its Decode operation with an empty reserved set), and
    `encodeURIComponent` as its reference inverse. Strings are sequences of
    Unicode scalar values, so a decoded code point is one character. */
module Uri {
  import opened Wrappers

  predicate IsHexDigit(c: char) {
    '0' <= c <= '9' || 'a' <= c <= 'f' || 'A' <= c <= 'F'
  }

  function HexValue(c: char): (v: nat)
    requires IsHexDigit(c)
    ensures v < 16
  {
    if '0' <= c <= '9' then c as int - '0' as int
    else if 'a' <= c <= 'f' then c as int - 'a' as int + 10
    else c as int - 'A' as int + 10
  }

  /** The octet written as `%XY` at position `k`, if there is one. */
  function EscapeAt(s: string, k: nat): (b: Option<nat>)
    ensures b.Some? ==> b.value < 256 && k + 3 <= |s|
  {
    if k + 2 < |s| && s[k] == '%' && IsHexDigit(s[k + 1]) && IsHexDigit(s[k + 2])
    then Some(16 * HexValue(s[k + 1]) + HexValue(s[k + 2]))
    else None
  }

  /** The number of octets of the UTF-8 sequence an octet starts, or 0 when
      it cannot start one: a continuation octet, or five or more leading
      one bits. */
  function SequenceLength(b: nat): (n: nat)
    ensures n <= 4
  {
    if b < 0x80 then 1
    else if b < 0xC0 then 0
    else if b < 0xE0 then 2
    else if b < 0xF0 then 3
    else if b < 0xF8 then 4
    else 0
  }

  /** The marker bits of the lead octet of an `n`-octet sequence. */
  function LeadMarker(n: nat): nat {
    if n == 2 then 0xC0 else if n == 3 then 0xE0 else 0xF0
  }

  /** The smallest code point an `n`-octet sequence may encode; anything
      smaller is an overlong encoding. */
  function MinCodePoint(n: nat): nat {
    if n == 2 then 0x80 else if n == 3 then 0x800 else 0x10000
  }

  predicate IsScalar(cp: int) {
    0 <= cp < 0xD800 || 0xE000 <= cp < 0x110000
  }

  /** Reads `count` continuation octets (`10xxxxxx`), each written as an
      escape, from position `k` on, and appends their six payload bits to
      `acc`. */
  function Continuation(s: string, k: nat, count: nat, acc: nat): (r: Option<nat>)
    ensures r.Some? && count > 0 ==> k + 3 * count <= |s|
    decreases count
  {
    if count == 0 then Some(acc)
    else match EscapeAt(s, k)
      case None => None
      case Some(c) =>
        if 0x80 <= c < 0xC0 then Continuation(s, k + 3, count - 1, acc * 64 + (c - 0x80))
        else None
  }

  function Cons(c: char, r: Result<string, ScriptError>): Result<string, ScriptError> {
    match r
    case Success(v) => Success([c] + v)
    case Failure(e) => Failure(e)
  }

  /** The character spelled by the escapes at the start of `s` and the
      number of characters they take up, or `None` when they are not a
      well-formed escape or not a valid UTF-8 encoding of one code point. */
  function EscapedChar(s: string): (r: Option<(char, nat)>)
    ensures r.Some? ==> 3 <= r.value.1 <= |s|
  {
    match EscapeAt(s, 0)
    case None => None
    case Some(b) =>
      var n := SequenceLength(b);
      if n == 0 then None
      else if n == 1 then Some((b as char, 3))
      else match Continuation(s, 3, n - 1, b - LeadMarker(n))
        case None => None
        case Some(cp) =>
          if MinCodePoint(n) <= cp && IsScalar(cp) then Some((cp as char, 3 * n)) else None
  }

  /** `decodeURIComponent(s)`: every escape is decoded; a `%` that does not
      start a well-formed escape, or escapes that do not spell a valid UTF-8
      encoding of one code point, raise a `URIError`. */
  function DecodeUri(s: string): (r: Result<string, ScriptError>)
    ensures r.Failure? ==> r.error == UriError
    decreases |s|
  {
    if |s| == 0 then Success("")
    else if s[0] != '%' then Cons(s[0], DecodeUri(s[1..]))
    else match EscapedChar(s)
      case None => Failure(UriError)
      case Some((c, len)) => Cons(c, DecodeUri(s[len..]))
  }

  /** Text without `%` decodes to itself. */
  lemma {:induction false} DecodeUriPlain(s: string)
    requires '%' !in s
    ensures DecodeUri(s) == Success(s)
    decreases |s|
  {
    if |s| > 0 {
      assert s[0] != '%';
      DecodeUriPlain(s[1..]);
      assert s == [s[0]] + s[1..];
    }
  }

  /** Text without `%` is decoded before what follows it is looked at. */
  lemma {:induction false} DecodeUriPlainPrefix(a: string, b: string)
    requires '%' !in a
    ensures DecodeUri(a + b) == (match DecodeUri(b)
      case Success(v) => Success(a + v)
      case Failure(e) => Failure(e))
    decreases |a|
  {
    if |a| == 0 {
      assert a + b == b;
      match DecodeUri(b)
      case Success(v) => assert a + v == v;
      case Failure(_) =>
    } else {
      assert (a + b)[0] == a[0] && a[0] != '%';
      assert (a + b)[1..] == a[1..] + b;
      DecodeUriPlainPrefix(a[1..], b);
      assert DecodeUri(a + b) == Cons(a[0], DecodeUri(a[1..] + b));
      match DecodeUri(b)
      case Success(v) => assert [a[0]] + (a[1..] + v) == a + v;
      case Failure(_) =>
    }
  }

  /** A `%` not followed by two hexadecimal digits raises a `URIError`,
      whatever came before it. */
  lemma DecodeUriStrayPercent(a: string, b: string)
    requires '%' !in a
    requires |b| < 2 || !IsHexDigit(b[0]) || !IsHexDigit(b[1])
    ensures DecodeUri(a + "%" + b) == Failure(UriError)
  {
    var t := "%" + b;
    assert EscapeAt(t, 0).None? && EscapedChar(t).None?;
    assert a + "%" + b == a + t;
    DecodeUriPlainPrefix(a, t);
  }

  // ---------------------------------------------------------------------
  // The encoder

  /** The characters `encodeURIComponent` leaves as they are. */
  predicate IsUnreserved(c: char) {
    'A' <= c <= 'Z' || 'a' <= c <= 'z' || '0' <= c <= '9' || c in "-_.!~*'()"
  }

  function HexDigitChar(v: nat): (c: char)
    requires v < 16
    ensures IsHexDigit(c) && HexValue(c) == v
  {
    if v < 10 then ('0' as int + v) as char else ('A' as int + v - 10) as char
  }

  /** `%XY` with upper-case digits. */
  function Escape(b: nat): (e: string)
    requires b < 256
    ensures |e| == 3 && e[0] == '%' && IsHexDigit(e[1]) && IsHexDigit(e[2])
  {
    ['%', HexDigitChar(b / 16), HexDigitChar(b % 16)]
  }

  /** The UTF-8 octets of a code point. */
  function Utf8(cp: nat): (bs: seq<nat>)
    requires IsScalar(cp)
    ensures 1 <= |bs| <= 4
    ensures forall i :: 0 <= i < |bs| ==> bs[i] < 256
  {
    if cp < 0x80 then [cp]
    else if cp < 0x800 then [0xC0 + cp / 64, 0x80 + cp % 64]
    else if cp < 0x10000 then [0xE0 + cp / 64 / 64, 0x80 + cp / 64 % 64, 0x80 + cp % 64]
    else [0xF0 + cp / 64 / 64 / 64, 0x80 + cp / 64 / 64 % 64, 0x80 + cp / 64 % 64, 0x80 + cp % 64]
  }

  function EscapeAll(bs: seq<nat>): (e: string)
    requires forall i :: 0 <= i < |bs| ==> bs[i] < 256
    ensures |e| == 3 * |bs|
    ensures forall i :: 0 <= i < |e| ==> e[i] == '%' || IsHexDigit(e[i])
  {
    if |bs| == 0 then "" else Escape(bs[0]) + EscapeAll(bs[1..])
  }

  function EncodeChar(c: char): (e: string)
    ensures |e| >= 1
    ensures forall i :: 0 <= i < |e| ==> IsUnreserved(e[i]) || e[i] == '%' || IsHexDigit(e[i])
  {
    if IsUnreserved(c) then [c] else EscapeAll(Utf8(c as int))
  }

  /** `encodeURIComponent(s)`. */
  function EncodeUri(s: string): (e: string)
    ensures |e| >= |s|
    ensures forall i :: 0 <= i < |e| ==> IsUnreserved(e[i]) || e[i] == '%' || IsHexDigit(e[i])
  {
    if |s| == 0 then "" else EncodeChar(s[0]) + EncodeUri(s[1..])
  }

  // ---------------------------------------------------------------------
  // Decoding undoes encoding

  /** The code point spelled by continuation octets after the lead bits. */
  function Fold(acc: nat, bs: seq<nat>): nat
    requires forall i :: 0 <= i < |bs| ==> 0x80 <= bs[i]
    decreases |bs|
  {
    if |bs| == 0 then acc else Fold(acc * 64 + (bs[0] - 0x80), bs[1..])
  }

  predicate AreContinuations(bs: seq<nat>) {
    forall i :: 0 <= i < |bs| ==> 0x80 <= bs[i] < 0xC0
  }

  lemma EscapeAtShift(p: string, y: string, k: nat)
    requires |p| <= k
    ensures EscapeAt(p + y, k) == EscapeAt(y, k - |p|)
  {
    var x := p + y;
    if k + 2 < |x| {
      assert x[k] == y[k - |p|] && x[k + 1] == y[k - |p| + 1] && x[k + 2] == y[k - |p| + 2];
    }
  }

  lemma EscapeAtEscape(b: nat, rest: string)
    requires b < 256
    ensures EscapeAt(Escape(b) + rest, 0) == Some(b)
  {
    var x := Escape(b) + rest;
    assert x[0] == '%' && x[1] == HexDigitChar(b / 16) && x[2] == HexDigitChar(b % 16);
  }

  lemma {:induction false} ContinuationShift(p: string, y: string, k: nat, count: nat, acc: nat)
    requires |p| <= k
    ensures Continuation(p + y, k, count, acc) == Continuation(y, k - |p|, count, acc)
    decreases count
  {
    if count > 0 {
      EscapeAtShift(p, y, k);
      match EscapeAt(y, k - |p|)
      case None =>
      case Some(c) =>
        if 0x80 <= c < 0xC0 {
          ContinuationShift(p, y, k + 3, count - 1, acc * 64 + (c - 0x80));
        }
    }
  }

  /** Escaped continuation octets are read back as the code point they spell. */
  lemma {:induction false} ContinuationOfEscapes(bs: seq<nat>, rest: string, acc: nat)
    requires AreContinuations(bs)
    ensures Continuation(EscapeAll(bs) + rest, 0, |bs|, acc) == Some(Fold(acc, bs))
    decreases |bs|
  {
    if |bs| > 0 {
      var y := EscapeAll(bs[1..]) + rest;
      assert EscapeAll(bs) + rest == Escape(bs[0]) + y;
      EscapeAtEscape(bs[0], y);
      ContinuationShift(Escape(bs[0]), y, 3, |bs| - 1, acc * 64 + (bs[0] - 0x80));
      ContinuationOfEscapes(bs[1..], rest, acc * 64 + (bs[0] - 0x80));
    }
  }

  /** What `DecodeUri` needs of the octets of a code point that is escaped
      as more than one octet. */
  predicate DecodesTo(bs: seq<nat>, cp: nat)
    requires |bs| > 0
  {
    && bs[0] < 256
    && SequenceLength(bs[0]) == |bs|
    && bs[0] >= LeadMarker(|bs|)
    && AreContinuations(bs[1..])
    && Fold(bs[0] - LeadMarker(|bs|), bs[1..]) == cp
    && MinCodePoint(|bs|) <= cp
  }

  lemma FoldTwo(acc: nat, x: nat, y: nat)
    requires 0x80 <= x && 0x80 <= y
    ensures Fold(acc, [x, y]) == (acc * 64 + (x - 0x80)) * 64 + (y - 0x80)
  {
    var a1 := acc * 64 + (x - 0x80);
    assert [x, y][1..] == [y];
    assert Fold(acc, [x, y]) == Fold(a1, [y]);
    assert [y][1..] == [];
    assert Fold(a1, [y]) == Fold(a1 * 64 + (y - 0x80), []);
  }

  lemma FoldThree(acc: nat, x: nat, y: nat, z: nat)
    requires 0x80 <= x && 0x80 <= y && 0x80 <= z
    ensures Fold(acc, [x, y, z]) == ((acc * 64 + (x - 0x80)) * 64 + (y - 0x80)) * 64 + (z - 0x80)
  {
    assert [x, y, z][1..] == [y, z];
    FoldTwo(acc * 64 + (x - 0x80), y, z);
  }

  lemma Utf8Two(cp: nat)
    requires 0x80 <= cp < 0x800
    ensures |Utf8(cp)| == 2 && DecodesTo(Utf8(cp), cp)
  {
    var bs := Utf8(cp);
    assert bs[1..] == [0x80 + cp % 64];
  }

  lemma Utf8Three(cp: nat)
    requires 0x800 <= cp < 0x10000 && IsScalar(cp)
    ensures |Utf8(cp)| == 3 && DecodesTo(Utf8(cp), cp)
  {
    var bs := Utf8(cp);
    var q1 := cp / 64;
    assert q1 == q1 / 64 * 64 + q1 % 64;
    assert bs[1..] == [0x80 + q1 % 64, 0x80 + cp % 64];
    FoldTwo(q1 / 64, 0x80 + q1 % 64, 0x80 + cp % 64);
  }

  lemma Utf8Four(cp: nat)
    requires 0x10000 <= cp < 0x110000
    ensures |Utf8(cp)| == 4 && DecodesTo(Utf8(cp), cp)
  {
    var bs := Utf8(cp);
    var q1 := cp / 64;
    var q2 := q1 / 64;
    assert q1 == q2 * 64 + q1 % 64;
    assert q2 == q2 / 64 * 64 + q2 % 64;
    assert q2 / 64 < 0x11;
    assert bs[1..] == [0x80 + q2 % 64, 0x80 + q1 % 64, 0x80 + cp % 64];
    FoldThree(q2 / 64, 0x80 + q2 % 64, 0x80 + q1 % 64, 0x80 + cp % 64);
  }

  /** The escapes of a multi-octet sequence decode to its code point, and
      decoding carries on right after them. */
  lemma DecodeEscapedSequence(bs: seq<nat>, cp: nat, rest: string)
    requires 2 <= |bs| && forall i :: 0 <= i < |bs| ==> bs[i] < 256
    requires DecodesTo(bs, cp) && IsScalar(cp)
    ensures DecodeUri(EscapeAll(bs) + rest) == Cons(cp as char, DecodeUri(rest))
  {
    var y := EscapeAll(bs[1..]) + rest;
    var s := EscapeAll(bs) + rest;
    assert s == Escape(bs[0]) + y;
    EscapeAtEscape(bs[0], y);
    ContinuationShift(Escape(bs[0]), y, 3, |bs| - 1, bs[0] - LeadMarker(|bs|));
    ContinuationOfEscapes(bs[1..], rest, bs[0] - LeadMarker(|bs|));
    EscapedCharSequence(s, bs[0], |bs|, cp);
    assert s[3 * |bs|..] == rest;
  }

  lemma EscapedCharSequence(s: string, b: nat, n: nat, cp: nat)
    requires EscapeAt(s, 0) == Some(b) && SequenceLength(b) == n && 2 <= n
    requires Continuation(s, 3, n - 1, b - LeadMarker(n)) == Some(cp)
    requires MinCodePoint(n) <= cp && IsScalar(cp)
    ensures EscapedChar(s) == Some((cp as char, 3 * n))
  {
  }

  /** One encoded character decodes back to that character, and decoding
      carries on right after it. */
  lemma DecodeEncodeChar(c: char, rest: string)
    ensures DecodeUri(EncodeChar(c) + rest) == Cons(c, DecodeUri(rest))
  {
    var s := EncodeChar(c) + rest;
    var cp := c as int;
    if IsUnreserved(c) {
      assert s[0] == c && c != '%';
      assert s[1..] == rest;
    } else if cp < 0x80 {
      assert EscapeAll([cp]) == Escape(cp);
      EscapeAtEscape(cp, rest);
      assert EscapedChar(s) == Some((cp as char, 3));
      assert s[3..] == rest;
    } else {
      if cp < 0x800 { Utf8Two(cp); } else if cp < 0x10000 { Utf8Three(cp); } else { Utf8Four(cp); }
      DecodeEscapedSequence(Utf8(cp), cp, rest);
    }
  }

  /** `decodeURIComponent(encodeURIComponent(s)) == s` for every string. */
  lemma {:induction false} DecodeEncode(s: string)
    ensures DecodeUri(EncodeUri(s)) == Success(s)
    decreases |s|
  {
    if |s| > 0 {
      DecodeEncodeChar(s[0], EncodeUri(s[1..]));
      DecodeEncode(s[1..]);
      assert [s[0]] + s[1..] == s;
    }
  }
}
