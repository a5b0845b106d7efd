/** `encodeURIComponent` (ECMAScript, over the percent-encoding of section 2.1 of RFC 3986)
    and `decodeURIComponent`, its inverse, over strings of Unicode scalar values. */
module Uri {
  import opened Js

  /** The characters `encodeURIComponent` leaves as they are: letters, digits and - _ . ! ~ * ' ( ) */
  predicate Unreserved(c: char)
  {
    || ('A' <= c <= 'Z') || ('a' <= c <= 'z') || ('0' <= c <= '9')
    || c == '-' || c == '_' || c == '.' || c == '!' || c == '~' || c == '*' || c == '\'' || c == '(' || c == ')'
  }

  /** What can appear in encoded text: unreserved characters and the '%' that starts an escape. */
  predicate EncodedChar(c: char) { Unreserved(c) || c == '%' }

  predicate IsByte(b: int) { 0 <= b < 256 }

  /** Upper-case hexadecimal digit, as the encoder writes it. */
  function HexDigit(d: int): (c: char)
    requires 0 <= d < 16
    ensures Unreserved(c)
  {
    if d < 10 then (48 + d) as char else (55 + d) as char
  }

  /** The value of a hexadecimal digit of either case, as the decoder reads it. */
  function HexValue(c: char): (r: Option<int>)
    ensures r.Some? ==> 0 <= r.value < 16
  {
    if '0' <= c <= '9' then Some(c as int - 48)
    else if 'A' <= c <= 'F' then Some(c as int - 55)
    else if 'a' <= c <= 'f' then Some(c as int - 87)
    else None
  }

  lemma HexValueDigit(d: int)
    requires 0 <= d < 16
    ensures HexValue(HexDigit(d)) == Some(d)
  {
  }

  /** The UTF-8 encoding of a scalar value, one to four bytes. */
  function Utf8(c: char): (bytes: seq<int>)
    ensures 1 <= |bytes| <= 4
    ensures forall i :: 0 <= i < |bytes| ==> IsByte(bytes[i])
  {
    var cp := c as int;
    if cp < 0x80 then [cp]
    else if cp < 0x800 then [0xC0 + cp / 64, 0x80 + cp % 64]
    else if cp < 0x10000 then [0xE0 + cp / 4096, 0x80 + cp / 64 % 64, 0x80 + cp % 64]
    else [0xF0 + cp / 0x40000, 0x80 + cp / 4096 % 64, 0x80 + cp / 64 % 64, 0x80 + cp % 64]
  }

  /** `%XY` for one byte. */
  function Escape(b: int): (r: string)
    requires IsByte(b)
  {
    ['%', HexDigit(b / 16), HexDigit(b % 16)]
  }

  function EscapeAll(bytes: seq<int>): (r: string)
    requires forall i :: 0 <= i < |bytes| ==> IsByte(bytes[i])
    ensures |r| == 3 * |bytes|
    ensures forall i :: 0 <= i < |r| ==> EncodedChar(r[i])
  {
    if bytes == [] then "" else Escape(bytes[0]) + EscapeAll(bytes[1..])
  }

  function EncodeChar(c: char): (r: string)
    ensures r != [] && forall i :: 0 <= i < |r| ==> EncodedChar(r[i])
  {
    if Unreserved(c) then [c] else EscapeAll(Utf8(c))
  }

  /** The strings one after another. */
  function Concat(parts: seq<string>): (r: string)
  {
    if parts == [] then "" else parts[0] + Concat(parts[1..])
  }

  lemma {:induction false} ConcatEncoded(parts: seq<string>)
    requires forall k, i :: 0 <= k < |parts| && 0 <= i < |parts[k]| ==> EncodedChar(parts[k][i])
    ensures forall i :: 0 <= i < |Concat(parts)| ==> EncodedChar(Concat(parts)[i])
  {
    if parts != [] {
      ConcatEncoded(parts[1..]);
    }
  }

  lemma {:induction false} ConcatLength(parts: seq<string>)
    requires forall k :: 0 <= k < |parts| ==> parts[k] != []
    ensures |Concat(parts)| >= |parts|
  {
    if parts != [] {
      ConcatLength(parts[1..]);
    }
  }

  /** The encodings of the characters of `s`, one per character. */
  function EncodedChars(s: string): (r: seq<string>)
    ensures |r| == |s| && forall k :: 0 <= k < |s| ==> r[k] == EncodeChar(s[k])
  {
    seq(|s|, k requires 0 <= k < |s| => EncodeChar(s[k]))
  }

  /** `encodeURIComponent(s)`: each character encoded on its own, in order. On scalar values
      it never throws. */
  function Enc(s: string): string
  {
    Concat(EncodedChars(s))
  }

  /** `encodeURIComponent` of an option that is written; nothing otherwise. */
  function EncOpt(s: Option<string>): Option<string>
  {
    match s
    case None => None
    case Some(x) => Some(Enc(x))
  }

  /** The output holds only unreserved characters and '%' (so no '&', '=', '?', '#' or space),
      and is at least as long as the input. */
  lemma EncEncoded(s: string)
    ensures forall i :: 0 <= i < |Enc(s)| ==> EncodedChar(Enc(s)[i])
    ensures |Enc(s)| >= |s|
  {
    ConcatEncoded(EncodedChars(s));
    ConcatLength(EncodedChars(s));
  }

  /** Encoding works character by character from the front. */
  lemma EncCons(s: string)
    requires s != []
    ensures Enc(s) == EncodeChar(s[0]) + Enc(s[1..])
  {
    assert EncodedChars(s)[1..] == EncodedChars(s[1..]);
  }

  /** Encoding leaves a text made only of unreserved characters as it is. */
  lemma {:induction false} EncUnreserved(s: string)
    requires forall i :: 0 <= i < |s| ==> Unreserved(s[i])
    ensures Enc(s) == s
  {
    if s != [] {
      EncCons(s);
      EncUnreserved(s[1..]);
    }
  }

  /** The decimal text of an integer passes through the encoder unchanged. */
  lemma EncNumberText(n: int)
    ensures Enc(NumberText(n)) == NumberText(n)
  {
    var r := NumberText(n);
    forall i | 0 <= i < |r|
      ensures Unreserved(r[i])
    {
      if n < 0 && i > 0 {
        assert r[i] == r[1..][i - 1];
      }
    }
    EncUnreserved(r);
  }

  // Decoding.

  /** The byte written `%XY` at the front of `s`, if there is one. */
  function EscapedByte(s: string): (r: Option<int>)
    ensures r.Some? ==> IsByte(r.value)
  {
    if |s| < 3 || s[0] != '%' then None
    else
      match (HexValue(s[1]), HexValue(s[2]))
      case (Some(hi), Some(lo)) => Some(hi * 16 + lo)
      case _ => None
  }

  /** The `n` escaped bytes at the front of `s`, if there are that many. */
  function EscapedBytes(s: string, n: nat): (r: Option<seq<int>>)
    ensures r.Some? ==> |r.value| == n && 3 * n <= |s|
    ensures r.Some? ==> forall i :: 0 <= i < |r.value| ==> IsByte(r.value[i])
  {
    if n == 0 then Some([])
    else
      match EscapedByte(s)
      case None => None
      case Some(b) =>
        match EscapedBytes(s[3..], n - 1)
        case None => None
        case Some(bs) => Some([b] + bs)
  }

  /** How many bytes a UTF-8 sequence with this leading byte has; 0 for a byte that cannot lead. */
  function SequenceLength(lead: int): nat
  {
    if 0 <= lead < 0x80 then 1
    else if 0xC0 <= lead < 0xE0 then 2
    else if 0xE0 <= lead < 0xF0 then 3
    else if 0xF0 <= lead < 0xF8 then 4
    else 0
  }

  predicate Continuation(b: int) { 0x80 <= b < 0xC0 }

  /** The smallest scalar value that needs `n` bytes; a smaller one would be an overlong form. */
  function MinCodePoint(n: nat): int
  {
    if n <= 1 then 0 else if n == 2 then 0x80 else if n == 3 then 0x800 else 0x10000
  }

  /** The scalar value a well-formed UTF-8 sequence stands for; None for a malformed,
      overlong, surrogate or out-of-range sequence (where `decodeURIComponent` throws URIError). */
  function Utf8Decode(bytes: seq<int>): (r: Option<char>)
  {
    if |bytes| == 0 || SequenceLength(bytes[0]) != |bytes| then None
    else if exists i :: 1 <= i < |bytes| && !Continuation(bytes[i]) then None
    else
      var cp :=
        if |bytes| == 1 then bytes[0]
        else if |bytes| == 2 then (bytes[0] - 0xC0) * 64 + (bytes[1] - 0x80)
        else if |bytes| == 3 then (bytes[0] - 0xE0) * 4096 + (bytes[1] - 0x80) * 64 + (bytes[2] - 0x80)
        else (bytes[0] - 0xF0) * 0x40000 + (bytes[1] - 0x80) * 4096 + (bytes[2] - 0x80) * 64 + (bytes[3] - 0x80);
      if cp < MinCodePoint(|bytes|) || (0xD800 <= cp < 0xE000) || cp >= 0x110000 then None
      else Some(cp as char)
  }

  function Cons(c: char, rest: Option<string>): Option<string>
  {
    match rest
    case None => None
    case Some(t) => Some([c] + t)
  }

  /** `decodeURIComponent(s)`: None where it throws URIError. */
  function DecodeComponent(s: string): Option<string>
    decreases |s|
  {
    if s == [] then Some([])
    else if s[0] != '%' then Cons(s[0], DecodeComponent(s[1..]))
    else
      match EscapedByte(s)
      case None => None
      case Some(lead) =>
        var n := SequenceLength(lead);
        if n == 0 then None
        else
          match EscapedBytes(s, n)
          case None => None
          case Some(bytes) =>
            match Utf8Decode(bytes)
            case None => None
            case Some(c) => Cons(c, DecodeComponent(s[3 * n..]))
  }

  // The round trip.

  lemma Utf8RoundTrip(c: char)
    ensures SequenceLength(Utf8(c)[0]) == |Utf8(c)|
    ensures Utf8Decode(Utf8(c)) == Some(c)
  {
    var cp := c as int;
    if cp < 0x80 {
    } else if cp < 0x800 {
      Utf8RoundTrip2(c);
    } else if cp < 0x10000 {
      Utf8RoundTrip3(c);
    } else {
      Utf8RoundTrip4(c);
    }
  }

  lemma Utf8RoundTrip2(c: char)
    requires 0x80 <= c as int < 0x800
    ensures SequenceLength(Utf8(c)[0]) == 2
    ensures Utf8Decode(Utf8(c)) == Some(c)
  {
    var cp := c as int;
    var b0, b1 := cp / 64, cp % 64;
    assert cp == b0 * 64 + b1;
    assert Utf8(c) == [0xC0 + b0, 0x80 + b1];
  }

  lemma Utf8RoundTrip3(c: char)
    requires 0x800 <= c as int < 0x10000
    ensures SequenceLength(Utf8(c)[0]) == 3
    ensures Utf8Decode(Utf8(c)) == Some(c)
  {
    var cp := c as int;
    var b0, b1, b2 := cp / 4096, cp / 64 % 64, cp % 64;
    assert cp / 64 == b0 * 64 + b1;
    assert cp == (cp / 64) * 64 + b2;
    assert cp == b0 * 4096 + b1 * 64 + b2;
    assert Utf8(c) == [0xE0 + b0, 0x80 + b1, 0x80 + b2];
  }

  lemma Utf8RoundTrip4(c: char)
    requires 0x10000 <= c as int
    ensures SequenceLength(Utf8(c)[0]) == 4
    ensures Utf8Decode(Utf8(c)) == Some(c)
  {
    var cp := c as int;
    var b0, b1, b2, b3 := cp / 0x40000, cp / 4096 % 64, cp / 64 % 64, cp % 64;
    assert cp / 4096 == b0 * 64 + b1;
    assert cp / 64 == (cp / 4096) * 64 + b2;
    assert cp == (cp / 64) * 64 + b3;
    assert cp == b0 * 0x40000 + b1 * 4096 + b2 * 64 + b3;
    assert Utf8(c) == [0xF0 + b0, 0x80 + b1, 0x80 + b2, 0x80 + b3];
  }

  lemma {:induction false} EscapedBytesRoundTrip(bytes: seq<int>, rest: string)
    requires forall i :: 0 <= i < |bytes| ==> IsByte(bytes[i])
    ensures EscapedBytes(EscapeAll(bytes) + rest, |bytes|) == Some(bytes)
  {
    if bytes != [] {
      var b := bytes[0];
      var s := EscapeAll(bytes) + rest;
      HexValueDigit(b / 16);
      HexValueDigit(b % 16);
      assert EscapedByte(s) == Some(b);
      assert s[3..] == EscapeAll(bytes[1..]) + rest;
      EscapedBytesRoundTrip(bytes[1..], rest);
      assert [b] + bytes[1..] == bytes;
    }
  }

  lemma DecodeEncodeChar(c: char, rest: string)
    ensures DecodeComponent(EncodeChar(c) + rest) == Cons(c, DecodeComponent(rest))
  {
    var s := EncodeChar(c) + rest;
    if Unreserved(c) {
      assert s[1..] == rest;
    } else {
      var bytes := Utf8(c);
      var n := |bytes|;
      EscapedBytesRoundTrip(bytes, rest);
      HexValueDigit(bytes[0] / 16);
      HexValueDigit(bytes[0] % 16);
      assert EscapedByte(s) == Some(bytes[0]);
      Utf8RoundTrip(c);
      assert s[3 * n..] == rest;
    }
  }

  /** `decodeURIComponent(encodeURIComponent(s)) == s` for every string of scalar values. */
  lemma {:induction false} DecodeEnc(s: string)
    ensures DecodeComponent(Enc(s)) == Some(s)
  {
    if s != [] {
      EncCons(s);
      DecodeEnc(s[1..]);
      DecodeEncodeChar(s[0], Enc(s[1..]));
      assert [s[0]] + s[1..] == s;
    }
  }

  /** Text without '%' decodes to itself. */
  lemma {:induction false} DecodePlain(s: string)
    requires '%' !in s
    ensures DecodeComponent(s) == Some(s)
  {
    if s != [] {
      assert s[0] != '%';
      DecodePlain(s[1..]);
      assert [s[0]] + s[1..] == s;
    }
  }

  /** A '%' in a value that was sent unencoded is decoded by the server: the value comes back
      changed, or not at all. */
  lemma PercentNotPreserved()
    ensures DecodeComponent("a%41") == Some("aA")
    ensures DecodeComponent("50%") == None
  {
    var s := "%41";
    assert HexValue(s[1]) == Some(4) && HexValue(s[2]) == Some(1);
    assert EscapedByte(s) == Some(0x41);
    assert EscapedBytes(s[3..], 0) == Some([]);
    assert [0x41] + [] == [0x41];
    assert EscapedBytes(s, 1) == Some([0x41]);
    assert Utf8Decode([0x41]) == Some('A');
    assert s[3..] == "";
    assert DecodeComponent(s[3..]) == Some([]);
    assert ['A'] + [] == "A";
    assert DecodeComponent(s) == Some("A");
    assert "a%41"[1..] == s && ['a'] + "A" == "aA";
    assert DecodeComponent("a%41") == Cons('a', DecodeComponent(s));
    assert "%"[0] == '%' && EscapedByte("%") == None;
    assert DecodeComponent("%") == None;
    assert "0%"[1..] == "%" && DecodeComponent("0%") == Cons('0', DecodeComponent("%"));
    assert "50%"[1..] == "0%" && DecodeComponent("50%") == Cons('5', DecodeComponent("0%"));
  }

}
