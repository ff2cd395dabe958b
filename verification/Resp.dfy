/**
 * The bulk-insert stream (pkg/infrastructure/bounds_seeder.go) against a reference decoder for the Arrays and
 * Bulk strings sections of the Redis serialization protocol specification.
 */
module Resp {
  import opened Common

  type byte = x: int | 0 <= x < 256
  type bytes = seq<byte>

  const CRLF: bytes := [13, 10]
  const STAR: byte := 42
  const DOLLAR: byte := 36
  const SET_COMMAND: bytes := [83, 69, 84]

  datatype Bound = Bound(key: bytes, value: bytes)

  /** A length in decimal, as %d prints it. */
  function Decimal(n: nat): bytes
    decreases n
  {
    if n < 10 then [48 + n] else Decimal(n / 10) + [48 + n % 10]
  }

  function BulkString(s: bytes): bytes {
    [DOLLAR] + Decimal(|s|) + CRLF + s + CRLF
  }

  function SetCommand(b: Bound): bytes {
    [STAR] + Decimal(3) + CRLF + BulkString(SET_COMMAND) + BulkString(b.key) + BulkString(b.value)
  }

  function Encode(bounds: seq<Bound>): bytes {
    if bounds == [] then [] else SetCommand(bounds[0]) + Encode(bounds[1..])
  }

  /** The literal pieces and the %d and %s verbs of the format, one after another. */
  function Formatted(b: Bound): bytes {
    [42, 51, 13, 10, 36, 51, 13, 10, 83, 69, 84, 13, 10, 36] + Decimal(|b.key|) + [13, 10] + b.key
    + [13, 10, 36] + Decimal(|b.value|) + [13, 10] + b.value + [13, 10]
  }

  method BuildProtocol(bounds: seq<Bound>) returns (protocol: bytes)
    ensures protocol == Encode(bounds)
  {
    protocol := [];
    for i := 0 to |bounds|
      invariant protocol + Encode(bounds[i..]) == Encode(bounds)
    {
      var next := Formatted(bounds[i]);
      FormatIsSetCommand(bounds[i]);
      EncodeStep(bounds, i, protocol, next);
      protocol := protocol + next;
    }
  }

  lemma EncodeStep(bounds: seq<Bound>, i: nat, before: bytes, next: bytes)
    requires i < |bounds| && next == SetCommand(bounds[i])
    ensures before + Encode(bounds[i..]) == before + next + Encode(bounds[i + 1..])
  {
    assert bounds[i..][1..] == bounds[i + 1..];
  }

  lemma FormatIsSetCommand(b: Bound)
    ensures Formatted(b) == SetCommand(b)
  {
    assert Decimal(3) == [51];
    assert [STAR] + Decimal(3) + CRLF + BulkString(SET_COMMAND) == [42, 51, 13, 10, 36, 51, 13, 10, 83, 69, 84, 13, 10];
  }

  // ---- The reference decoder ----

  predicate IsDigit(c: byte) { 48 <= c <= 57 }

  function DigitsAtFront(s: bytes): (n: nat)
    ensures n <= |s|
  {
    if s == [] || !IsDigit(s[0]) then 0 else 1 + DigitsAtFront(s[1..])
  }

  function Value(digits: bytes): int {
    if digits == [] then 0 else 10 * Value(digits[..|digits| - 1]) + digits[|digits| - 1] - 48
  }

  /** A decimal number up to CR LF, and what follows. */
  function ReadNumber(s: bytes): (r: Option<(int, bytes)>)
    ensures r.Some? ==> |r.value.1| < |s|
  {
    var n := DigitsAtFront(s);
    if n == 0 || !HasPrefix(s[n..], CRLF) then None else Some((Value(s[..n]), s[n + 2..]))
  }

  function ReadBulkString(s: bytes): (r: Option<(bytes, bytes)>)
    ensures r.Some? ==> |r.value.1| < |s|
  {
    if s == [] || s[0] != DOLLAR then None
    else match ReadNumber(s[1..])
      case None => None
      case Some((n, rest)) =>
        if n < 0 || n + 2 > |rest| || rest[n..n + 2] != CRLF then None else Some((rest[..n], rest[n + 2..]))
  }

  function ReadBulkStrings(n: nat, s: bytes): (r: Option<(seq<bytes>, bytes)>)
    ensures r.Some? ==> |r.value.1| <= |s|
    decreases n
  {
    if n == 0 then Some(([], s))
    else match ReadBulkString(s)
      case None => None
      case Some((first, rest)) =>
        match ReadBulkStrings(n - 1, rest)
        case None => None
        case Some((others, end)) => Some(([first] + others, end))
  }

  function ReadArray(s: bytes): (r: Option<(seq<bytes>, bytes)>)
    ensures r.Some? ==> |r.value.1| < |s|
  {
    if s == [] || s[0] != STAR then None
    else match ReadNumber(s[1..])
      case None => None
      case Some((n, rest)) => if n < 0 then None else ReadBulkStrings(n, rest)
  }

  /** Arrays of bulk strings, one after another, to the end. */
  function Decode(s: bytes): Option<seq<seq<bytes>>>
    decreases |s|
  {
    if s == [] then Some([])
    else match ReadArray(s)
      case None => None
      case Some((first, rest)) =>
        match Decode(rest) case None => None case Some(others) => Some([first] + others)
  }

  function Commands(bounds: seq<Bound>): seq<seq<bytes>> {
    if bounds == [] then [] else [[SET_COMMAND, bounds[0].key, bounds[0].value]] + Commands(bounds[1..])
  }

  // ---- Decoding what was encoded ----

  lemma {:induction false} DecimalReadsBack(n: nat)
    ensures Decimal(n) != [] && Value(Decimal(n)) == n
    ensures forall c | c in Decimal(n) :: IsDigit(c)
    decreases n
  {
    if n < 10 {
      assert Decimal(n)[..0] == [];
    } else {
      DecimalReadsBack(n / 10);
      assert Decimal(n)[..|Decimal(n)| - 1] == Decimal(n / 10);
    }
  }

  lemma {:induction false} DigitsThenOther(digits: bytes, rest: bytes)
    requires forall c | c in digits :: IsDigit(c)
    requires rest != [] && !IsDigit(rest[0])
    ensures DigitsAtFront(digits + rest) == |digits|
    decreases |digits|
  {
    if digits == [] {
      assert digits + rest == rest;
    } else {
      assert (digits + rest)[0] == digits[0];
      assert (digits + rest)[1..] == digits[1..] + rest;
      DigitsThenOther(digits[1..], rest);
    }
  }

  lemma NumberReadsBack(n: nat, rest: bytes)
    ensures ReadNumber(Decimal(n) + CRLF + rest) == Some((n, rest))
  {
    var s, k := Decimal(n) + CRLF + rest, |Decimal(n)|;
    DecimalReadsBack(n);
    DigitsThenOther(Decimal(n), CRLF + rest);
    assert s == Decimal(n) + (CRLF + rest);
    assert s[..k] == Decimal(n) && s[k..] == CRLF + rest && s[k + 2..] == rest;
    assert s[k..][..2] == CRLF;
  }

  lemma BulkStringReadsBack(text: bytes, rest: bytes)
    ensures ReadBulkString(BulkString(text) + rest) == Some((text, rest))
  {
    var s := BulkString(text) + rest;
    var after := text + CRLF + rest;
    assert s[1..] == Decimal(|text|) + CRLF + after;
    NumberReadsBack(|text|, after);
    assert after[|text|..|text| + 2] == CRLF;
    assert after[..|text|] == text && after[|text| + 2..] == rest;
  }

  function Prepend(text: bytes, strings: Option<(seq<bytes>, bytes)>): Option<(seq<bytes>, bytes)> {
    if strings.None? then None else Some(([text] + strings.value.0, strings.value.1))
  }

  lemma OneMoreString(n: nat, text: bytes, rest: bytes)
    ensures ReadBulkStrings(n + 1, BulkString(text) + rest) == Prepend(text, ReadBulkStrings(n, rest))
  {
    BulkStringReadsBack(text, rest);
  }

  lemma ThreeStrings(a: bytes, b: bytes, c: bytes, rest: bytes)
    ensures ReadBulkStrings(3, BulkString(a) + (BulkString(b) + (BulkString(c) + rest))) == Some(([a, b, c], rest))
  {
    var two := BulkString(b) + (BulkString(c) + rest);
    var one := BulkString(c) + rest;
    OneMoreString(0, c, rest);
    OneMoreString(1, b, one);
    OneMoreString(2, a, two);
    PrependThree(a, b, c, rest);
  }

  lemma PrependThree(a: bytes, b: bytes, c: bytes, rest: bytes)
    ensures Prepend(a, Prepend(b, Prepend(c, ReadBulkStrings(0, rest)))) == Some(([a, b, c], rest))
  {
    assert [a] + ([b] + ([c] + [])) == [a, b, c];
  }

  lemma ArrayReadsBack(n: nat, strings: bytes)
    ensures ReadArray([STAR] + (Decimal(n) + CRLF + strings)) == ReadBulkStrings(n, strings)
  {
    var s := [STAR] + (Decimal(n) + CRLF + strings);
    assert s[1..] == Decimal(n) + CRLF + strings;
    NumberReadsBack(n, strings);
  }

  lemma Regroup(a: bytes, b: bytes, c: bytes, d: bytes, e: bytes, f: bytes, rest: bytes)
    ensures a + b + c + d + e + f + rest == a + (b + c + (d + (e + (f + rest))))
  {
  }

  lemma CommandReadsBack(b: Bound, rest: bytes)
    ensures ReadArray(SetCommand(b) + rest) == Some(([SET_COMMAND, b.key, b.value], rest))
  {
    ThreeStrings(SET_COMMAND, b.key, b.value, rest);
    var strings := BulkString(SET_COMMAND) + (BulkString(b.key) + (BulkString(b.value) + rest));
    ArrayReadsBack(3, strings);
    Regroup([STAR], Decimal(3), CRLF, BulkString(SET_COMMAND), BulkString(b.key), BulkString(b.value), rest);
  }

  /** The stream decodes to exactly the commands, whatever bytes the keys and values hold. */
  lemma {:induction false} DecodeEncode(bounds: seq<Bound>)
    ensures Decode(Encode(bounds)) == Some(Commands(bounds))
    decreases |bounds|
  {
    if bounds == [] {
    } else {
      CommandReadsBack(bounds[0], Encode(bounds[1..]));
      DecodeEncode(bounds[1..]);
      assert Encode(bounds) != [];
    }
  }

  lemma {:induction false} CommandsInjective(a: seq<Bound>, b: seq<Bound>)
    requires Commands(a) == Commands(b)
    ensures a == b
    decreases |a|
  {
    if a == [] || b == [] {
    } else {
      assert Commands(a)[0] == Commands(b)[0];
      assert Commands(a)[0][1] == a[0].key && Commands(a)[0][2] == a[0].value;
      assert Commands(a)[1..] == Commands(a[1..]) && Commands(b)[1..] == Commands(b[1..]);
      CommandsInjective(a[1..], b[1..]);
      assert a == [a[0]] + a[1..] && b == [b[0]] + b[1..];
    }
  }

  /** So no two lists of bounds have the same stream. */
  lemma EncodeInjective(a: seq<Bound>, b: seq<Bound>)
    requires Encode(a) == Encode(b)
    ensures a == b
  {
    DecodeEncode(a);
    DecodeEncode(b);
    CommandsInjective(a, b);
  }
}
