/** JavaScript values and the built-in operations that the client library leans on:
    `undefined`, truthiness, `throw`, `Array.prototype.join`, `String.prototype.split`
    and the decimal text of an integral Number. */
module Js {

  /** An argument or option field that may be left out: None is `undefined`. */
  datatype Option<+T> = None | Some(value: T)

  /** What a `throw` in the modelled code raises. */
  datatype Thrown =
    | Error(message: string)              // `throw new Error(message)`
    | ReferenceError(identifier: string)  // reading an identifier that was never declared

  /** The outcome of a call: a value, or the exception it throws synchronously. */
  datatype Result<+T> = Ok(value: T) | Err(error: Thrown)

  // Truthiness (`if (x)` and `!x`) for the types the options are documented with.
  // An array is an object, so it is truthy even when empty: `!seeds` holds only for None.

  predicate TruthyString(s: Option<string>) { s.Some? && s.value != "" }

  predicate TruthyNumber(n: Option<int>) { n.Some? && n.value != 0 }

  predicate TruthyBool(b: Option<bool>) { b == Some(true) }

  // An option kept only when the source's `if (x)` guard lets it through.

  function IfTruthy(s: Option<string>): Option<string>
  {
    if TruthyString(s) then s else None
  }

  function IfNonZero(n: Option<int>): Option<int>
  {
    if TruthyNumber(n) then n else None
  }

  function IfTrue(b: Option<bool>): Option<bool>
  {
    if TruthyBool(b) then b else None
  }

  /** `${+b}`: a boolean coerced to a Number and rendered. */
  function NumericBool(b: bool): string
  {
    if b then "1" else "0"
  }

  /** `${b}`: a boolean rendered as text. */
  function BoolText(b: bool): string
  {
    if b then "true" else "false"
  }

  /** `parts.join(sep)` */
  function Join(parts: seq<string>, sep: string): (r: string)
    ensures |parts| == 1 ==> r == parts[0]
    ensures |parts| == 0 ==> r == ""
  {
    if |parts| == 0 then ""
    else if |parts| == 1 then parts[0]
    else parts[0] + sep + Join(parts[1..], sep)
  }

  /** Joining one more part at the end adds the separator and the part. */
  lemma {:induction false} JoinSnoc(parts: seq<string>, sep: string, last: string)
    requires |parts| >= 1
    ensures Join(parts + [last], sep) == Join(parts, sep) + sep + last
  {
    if |parts| > 1 {
      assert (parts + [last])[1..] == parts[1..] + [last];
      JoinSnoc(parts[1..], sep, last);
    } else {
      assert parts + [last] == [parts[0], last];
    }
  }

  /** A character that is in no part and not in the separator is not in the joined text. */
  lemma {:induction false} JoinExcludes(parts: seq<string>, sep: string, c: char)
    requires c !in sep
    requires forall i :: 0 <= i < |parts| ==> c !in parts[i]
    ensures c !in Join(parts, sep)
  {
    if |parts| > 1 {
      JoinExcludes(parts[1..], sep, c);
    }
  }

  /** The first position of `c` in `s`, if any. */
  function IndexOf(s: string, c: char): (r: Option<nat>)
    ensures r.Some? ==> r.value < |s| && s[r.value] == c && c !in s[..r.value]
    ensures r.None? <==> c !in s
  {
    if |s| == 0 then None
    else if s[0] == c then Some(0)
    else
      match IndexOf(s[1..], c)
      case None => None
      case Some(i) =>
        assert s[..i + 1] == [s[0]] + s[1..][..i];
        Some(i + 1)
  }

  /** Where `c` first occurs in `a + [c] + b` when `a` does not hold it. */
  lemma {:induction false} IndexOfAfter(a: string, c: char, b: string)
    requires c !in a
    ensures IndexOf(a + [c] + b, c) == Some(|a|)
  {
    var s := a + [c] + b;
    if a != [] {
      assert s[1..] == a[1..] + [c] + b;
      IndexOfAfter(a[1..], c, b);
    }
  }

  /** `s.split(c)` with a one-character separator: the pieces between the separators, at least one. */
  function Split(s: string, c: char): (r: seq<string>)
    ensures |r| >= 1
    ensures forall i :: 0 <= i < |r| ==> c !in r[i]
    decreases |s|
  {
    match IndexOf(s, c)
    case None => [s]
    case Some(i) => [s[..i]] + Split(s[i + 1..], c)
  }

  /** Splitting undoes joining, as long as no part holds the separator. */
  lemma {:induction false} SplitJoin(parts: seq<string>, c: char)
    requires |parts| >= 1
    requires forall i :: 0 <= i < |parts| ==> c !in parts[i]
    ensures Split(Join(parts, [c]), c) == parts
  {
    if |parts| > 1 {
      var rest := Join(parts[1..], [c]);
      var s := parts[0] + [c] + rest;
      assert Join(parts, [c]) == s;
      IndexOfAfter(parts[0], c, rest);
      assert s[..|parts[0]|] == parts[0];
      assert s[|parts[0]| + 1..] == rest;
      SplitJoin(parts[1..], c);
    }
  }

  // The decimal text of an integer, as `${n}` and `String(n)` render a safe integer (one of
  // magnitude below 2^53); larger Numbers are held and printed rounded.

  predicate IsDigit(c: char) { '0' <= c <= '9' }

  function DigitChar(d: int): (c: char)
    requires 0 <= d < 10
    ensures IsDigit(c)
  {
    (48 + d) as char
  }

  function DigitValue(c: char): (d: nat)
    requires IsDigit(c)
    ensures d < 10
  {
    (c as int) - 48
  }

  predicate AllDigits(s: string) { forall i :: 0 <= i < |s| ==> IsDigit(s[i]) }

  function NatText(n: nat): (r: string)
    ensures |r| >= 1 && AllDigits(r)
    ensures n < 10 <==> |r| == 1
  {
    if n < 10 then [DigitChar(n)] else NatText(n / 10) + [DigitChar(n % 10)]
  }

  function NumberText(n: int): (r: string)
    ensures |r| >= 1
    ensures r[0] == '-' <==> n < 0
    ensures n < 0 ==> AllDigits(r[1..])
    ensures n >= 0 ==> AllDigits(r)
  {
    if n < 0 then "-" + NatText(-n) else NatText(n)
  }

  /** `${n}` of an option that is defined; nothing otherwise. */
  function NumberOpt(n: Option<int>): Option<string>
  {
    match n
    case None => None
    case Some(x) => Some(NumberText(x))
  }

  /** `${+b}` of an option that is defined; nothing otherwise. */
  function NumericBoolOpt(b: Option<bool>): Option<string>
  {
    match b
    case None => None
    case Some(x) => Some(NumericBool(x))
  }

  /** `${b}` of an option that is defined; nothing otherwise. */
  function BoolTextOpt(b: Option<bool>): Option<string>
  {
    match b
    case None => None
    case Some(x) => Some(BoolText(x))
  }

  /** `${parts.join(sep)}` of an array that is given; nothing otherwise. */
  function JoinOpt(parts: Option<seq<string>>, sep: string): Option<string>
  {
    match parts
    case None => None
    case Some(ps) => Some(Join(ps, sep))
  }

  /** `String(s)`: the text itself, or "undefined" when it is left out. */
  function StringOf(s: Option<string>): string
  {
    match s
    case None => "undefined"
    case Some(t) => t
  }

  function ParseNat(s: string): nat
    requires |s| >= 1 && AllDigits(s)
  {
    if |s| == 1 then DigitValue(s[0])
    else ParseNat(s[..|s| - 1]) * 10 + DigitValue(s[|s| - 1])
  }

  /** `Number(s)` for the decimal texts of integers; None for anything else. */
  function ParseNumber(s: string): Option<int>
  {
    if |s| >= 2 && s[0] == '-' && AllDigits(s[1..]) then
      var magnitude: int := ParseNat(s[1..]);
      Some(-magnitude)
    else if |s| >= 1 && AllDigits(s) then Some(ParseNat(s))
    else None
  }

  lemma {:induction false} ParseNatText(n: nat)
    ensures ParseNat(NatText(n)) == n
  {
    if n >= 10 {
      var s := NatText(n);
      assert s[..|s| - 1] == NatText(n / 10);
      ParseNatText(n / 10);
    }
  }

  /** Reading the decimal text of an integer gives the integer back. */
  lemma NumberTextRoundTrip(n: int)
    ensures ParseNumber(NumberText(n)) == Some(n)
  {
    var s := NumberText(n);
    if n < 0 {
      assert s[1..] == NatText(-n);
      ParseNatText(-n);
      assert |s| >= 2 && s[0] == '-' && AllDigits(s[1..]);
    } else {
      ParseNatText(n);
      assert !(|s| >= 2 && s[0] == '-');
    }
  }

  /** `${+b}` is the text of the Number 1 or 0, so a server reading it as a number gets the
      flag back as 1 or 0. */
  lemma NumericBoolReadsAsNumber(b: bool)
    ensures ParseNumber(NumericBool(b)) == Some(if b then 1 else 0)
  {
    var n := if b then 1 else 0;
    assert NumericBool(b) == NumberText(n);
    NumberTextRoundTrip(n);
  }

  /** Reading back a number that may be left out gives the option back. */
  lemma NumberOptRoundTrip(n: Option<int>)
    ensures match NumberOpt(n) case None => n.None? case Some(t) => ParseNumber(t) == n
  {
    if n.Some? {
      NumberTextRoundTrip(n.value);
    }
  }
}
