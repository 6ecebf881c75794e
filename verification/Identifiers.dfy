/**
 The compact identifier codec (`encode` and `decode` in src/domain/identifiers.rs): 16 bytes as 26
 lowercase base32hex digits (section 7 of RFC 4648), through a 16-bit buffer.

 Both loops are specified by one number. Sixteen bytes are the digits of a number below 256^16, the payload is the
 digits of a number below 32^26, and the second is four times the first: the 128 bits of the identifier followed by
 two zero bits.
 */
module Identifiers {

  datatype Error = InvalidLength | NonCanonicalEncoding | WrongPrefix | NotUuidV7

  datatype Result<+T> = Ok(value: T) | Err(error: Error)

  const ENCODED_LEN := 26
  const BYTES := 16

  // ---------------------------------------------------------------------------------------------
  // Digits of a number

  predicate Digits(digits: seq<nat>, base: nat) { forall i :: 0 <= i < |digits| ==> digits[i] < base }

  /** The number that a list of digits spells, most significant first. */
  function Value(digits: seq<nat>, base: nat): nat {
    if digits == [] then 0 else Value(digits[..|digits| - 1], base) * base + digits[|digits| - 1]
  }

  lemma ValueSnoc(digits: seq<nat>, digit: nat, base: nat)
    ensures Value(digits + [digit], base) == Value(digits, base) * base + digit
  {
    assert (digits + [digit])[..|digits|] == digits;
  }

  lemma ProductGrows(a: nat, b: nat, c: nat)
    requires a < b
    ensures a * c + c <= b * c
  {
    assert (b - a - 1) * c >= 0;
    assert b * c == a * c + c + (b - a - 1) * c;
  }

  /** Quotient and remainder are unique. */
  lemma DivisionIsUnique(q: nat, r: nat, p: nat, s: nat, base: nat)
    requires r < base && s < base && q * base + r == p * base + s
    ensures q == p && r == s
  {
    if q < p { ProductGrows(q, p, base); }
    if p < q { ProductGrows(p, q, base); }
  }

  /** Digit strings of one length are equal when they spell the same number. */
  lemma {:induction false} ValueIsInjective(a: seq<nat>, b: seq<nat>, base: nat)
    requires |a| == |b| && Digits(a, base) && Digits(b, base) && Value(a, base) == Value(b, base)
    ensures a == b
  {
    if a != [] {
      var n := |a| - 1;
      DivisionIsUnique(Value(a[..n], base), a[n], Value(b[..n], base), b[n], base);
      ValueIsInjective(a[..n], b[..n], base);
      assert a == a[..n] + [a[n]] && b == b[..n] + [b[n]];
    }
  }

  // ---------------------------------------------------------------------------------------------
  // Lexicographic order

  /** At place k the two strings differ for the first time, and there the left one is smaller. */
  predicate SmallerAt(a: seq<nat>, b: seq<nat>, k: nat) {
    k < |a| && k < |b| && a[..k] == b[..k] && a[k] < b[k]
  }

  /** Lexicographic order of strings of one length. */
  ghost predicate Before(a: seq<nat>, b: seq<nat>) { exists k: nat :: SmallerAt(a, b, k) }

  lemma {:induction false} LongerStaysSmaller(a: seq<nat>, b: seq<nat>, k: nat, base: nat)
    requires |a| == |b| && Digits(a, base) && Digits(b, base) && k <= |a|
    requires Value(a[..k], base) < Value(b[..k], base)
    ensures Value(a, base) < Value(b, base)
    decreases |a| - k
  {
    if k == |a| {
      assert a[..k] == a && b[..k] == b;
    } else {
      assert a[..k + 1][..k] == a[..k] && b[..k + 1][..k] == b[..k];
      ProductGrows(Value(a[..k], base), Value(b[..k], base), base);
      LongerStaysSmaller(a, b, k + 1, base);
    }
  }

  lemma SmallerHasSmallerValue(a: seq<nat>, b: seq<nat>, k: nat, base: nat)
    requires |a| == |b| && Digits(a, base) && Digits(b, base) && SmallerAt(a, b, k)
    ensures Value(a, base) < Value(b, base)
  {
    assert a[..k + 1][..k] == a[..k] && b[..k + 1][..k] == b[..k];
    LongerStaysSmaller(a, b, k + 1, base);
  }

  /** Length of the common prefix, from a place up to which the strings agree. */
  function Agreement(a: seq<nat>, b: seq<nat>, k: nat): (n: nat)
    requires |a| == |b| && k <= |a| && a[..k] == b[..k]
    ensures k <= n <= |a| && a[..n] == b[..n] && (n < |a| ==> a[n] != b[n])
    decreases |a| - k
  {
    if k == |a| || a[k] != b[k] then k
    else
      assert a[..k + 1] == a[..k] + [a[k]] && b[..k + 1] == b[..k] + [b[k]];
      Agreement(a, b, k + 1)
  }

  /** Strings of one length are ordered like the numbers they spell. */
  lemma OrderIsNumeric(a: seq<nat>, b: seq<nat>, base: nat)
    requires |a| == |b| && Digits(a, base) && Digits(b, base)
    ensures Before(a, b) <==> Value(a, base) < Value(b, base)
  {
    if Before(a, b) {
      var k: nat :| SmallerAt(a, b, k);
      SmallerHasSmallerValue(a, b, k, base);
    } else {
      var n := Agreement(a, b, 0);
      if n == |a| {
        assert a == a[..n] && b == b[..n];
      } else {
        assert !SmallerAt(a, b, n);
        SmallerHasSmallerValue(b, a, n, base);
      }
    }
  }

  // ---------------------------------------------------------------------------------------------
  // Symbols

  /** The base32hex alphabet 0-9, a-v. */
  function Letter(value: nat): char
    requires value < 32
  {
    if value < 10 then ('0' as int + value) as char else ('a' as int + value - 10) as char
  }

  predicate IsLetter(c: char) { '0' <= c <= '9' || 'a' <= c <= 'v' }

  function Symbol(c: char): (value: nat)
    requires IsLetter(c)
    ensures value < 32 && Letter(value) == c
  {
    if c <= '9' then c as int - '0' as int else c as int - 'a' as int + 10
  }

  predicate Canonical(payload: string) { forall i :: 0 <= i < |payload| ==> IsLetter(payload[i]) }

  function Symbols(payload: string): (values: seq<nat>)
    requires Canonical(payload)
    ensures |values| == |payload| && Digits(values, 32)
    ensures forall i :: 0 <= i < |payload| ==> Letter(values[i]) == payload[i]
  {
    seq(|payload|, i requires 0 <= i < |payload| => Symbol(payload[i]))
  }

  lemma SymbolOfLetter(value: nat)
    requires value < 32
    ensures IsLetter(Letter(value)) && Symbol(Letter(value)) == value
  {
  }

  // ---------------------------------------------------------------------------------------------
  // The bit buffer

  /** An unsigned 16-bit machine word. */
  newtype U16 = x: int | 0 <= x < 0x1_0000

  /** Powers of two as far as the buffer needs them. */
  function Pow2(k: nat): nat
    requires k <= 12
  {
    [1, 2, 4, 8, 16, 32, 64, 128, 256, 512, 1024, 2048, 4096][k]
  }

  lemma RemainderIs(x: nat, m: nat, q: nat, r: nat)
    requires r < m && x == q * m + r
    ensures x % m == r
  {
    assert x == x / m * m + x % m;
    DivisionIsUnique(x / m, x % m, q, r, m);
  }

  lemma SmallRemainder(x: nat, m: nat)
    requires x < m
    ensures x % m == x
  {
    RemainderIs(x, m, 0, x);
  }

  lemma Regroup(a: nat, b: nat, p: nat)
    ensures (a * 32 + b) * p == a * (p * 32) + b * p
  {
  }

  /** The low bits of a word, split into a five-bit digit and what lies below it. */
  lemma FiveBits(word: nat, p: nat)
    requires p > 0
    ensures word % (p * 32) == ((word / p) % 32) * p + word % p
  {
    var q, r := word / p, word % p;
    var high, digit := q / 32, q % 32;
    assert word == q * p + r;
    Regroup(high, digit, p);
    ProductGrows(digit, 32, p);
    RemainderIs(word, p * 32, high, digit * p + r);
  }

  /** A number shifted to the left. */
  function Shifted(number: nat, bits: nat): nat {
    if bits == 0 then number else 2 * Shifted(number, bits - 1)
  }

  lemma {:induction false} ShiftMultiplies(number: nat, bits: nat)
    requires bits <= 12
    ensures Shifted(number, bits) == number * Pow2(bits)
  {
    if bits > 0 {
      ShiftMultiplies(number, bits - 1);
      assert Pow2(bits) == 2 * Pow2(bits - 1);
    }
  }

  /** The number spelled so far: the digits already written, followed by the pending low bits. */
  predicate Pending(number: nat, written: nat, bits: nat, low: nat) {
    bits <= 12 && low < Pow2(bits) && number == Shifted(written, bits) + low
  }

  lemma OneDigit(number: nat, written: nat, bits: nat, word: nat)
    requires 5 <= bits <= 12 && Pending(number, written, bits, word % Pow2(bits))
    ensures var digit := (word / Pow2(bits - 5)) % 32;
            Pending(number, written * 32 + digit, bits - 5, word % Pow2(bits - 5))
  {
    var p := Pow2(bits - 5);
    var digit := (word / p) % 32;
    assert Pow2(bits) == p * 32;
    FiveBits(word, p);
    Regroup(written, digit, p);
    ShiftMultiplies(written, bits);
    ShiftMultiplies(written * 32 + digit, bits - 5);
  }

  lemma OneByte(number: nat, written: nat, bits: nat, low: nat, byte: nat)
    requires bits < 5 && Pending(number, written, bits, low) && byte < 256
    ensures Pending(number * 256 + byte, written, bits + 8, low * 256 + byte)
    ensures low * 256 + byte < 0x1_0000 && (low * 256 + byte) % Pow2(bits + 8) == low * 256 + byte
  {
    SmallRemainder(low * 256 + byte, Pow2(bits + 8));
    var p := Pow2(bits);
    assert Pow2(bits + 8) == p * 256;
    assert (written * p + low) * 256 == written * (p * 256) + low * 256;
    ShiftMultiplies(written, bits);
    ShiftMultiplies(written, bits + 8);
  }

  lemma LastDigit(number: nat, written: nat, low: nat)
    requires Pending(number, written, 3, low)
    ensures low * Pow2(2) < 32 && written * 32 + low * Pow2(2) == number * 4
  {
    ShiftMultiplies(written, 3);
  }

  // ---------------------------------------------------------------------------------------------
  // Encoding

  predicate IsIdentifier(bytes: seq<nat>) { |bytes| == BYTES && Digits(bytes, 256) }

  /** The payload spells the identifier's number, shifted by the two padding bits. */
  predicate EncodesTo(bytes: seq<nat>, payload: string) {
    IsIdentifier(bytes) && |payload| == ENCODED_LEN && Canonical(payload) &&
    Value(Symbols(payload), 32) == Value(bytes, 256) * 4
  }

  /** Sixteen bytes as twenty-six digits. Every buffer value fits a 16-bit word. */
  method Encode(bytes: seq<nat>) returns (output: string)
    requires IsIdentifier(bytes)
    ensures EncodesTo(bytes, output)
  {
    output := "";
    ghost var digits: seq<nat> := [];
    var buffer: U16, bits := 0, 0;
    for k := 0 to |bytes|
      invariant bits < 5 && 8 * k == 5 * |digits| + bits && Spells(output, digits)
      invariant Pending(Value(bytes[..k], 256), Value(digits, 32), bits, buffer as int)
    {
      assert bytes[..k + 1] == bytes[..k] + [bytes[k]];
      ValueSnoc(bytes[..k], bytes[k], 256);
      output, buffer, bits, digits := WriteByte(output, buffer, bits, bytes[k], Value(bytes[..k], 256), digits);
    }
    assert bytes[..|bytes|] == bytes && bits == 3 && |digits| == 25;
    output := WriteRest(output, buffer, bits, Value(bytes, 256), digits);
  }

  /** The bits left over, filled up with zeros, are the last digit. */
  method WriteRest(text: string, buffer: U16, bits: nat, ghost number: nat, ghost written: seq<nat>)
    returns (output: string)
    requires bits == 3 && Spells(text, written) && Pending(number, Value(written, 32), bits, buffer as int)
    ensures Canonical(output) && |output| == |written| + 1 && Value(Symbols(output), 32) == number * 4
  {
    LastDigit(number, Value(written, 32), buffer as int);
    SmallRemainder(buffer as int * Pow2(2), 32);
    var index := (buffer as int * Pow2(5 - bits)) % 32;
    Append(text, written, index);
    output := text + [Letter(index)];
    SpelledSymbols(output, written + [index]);
  }

  /** The body of the outer loop: one byte enters the buffer, and its complete digits leave. */
  method WriteByte(text: string, before: U16, pending: nat, byte: nat, ghost number: nat, ghost written: seq<nat>)
    returns (output: string, buffer: U16, bits: nat, ghost digits: seq<nat>)
    requires byte < 256 && pending < 5 && Spells(text, written)
    requires Pending(number, Value(written, 32), pending, before as int)
    ensures bits < 5 && 5 * |digits| + bits == 5 * |written| + pending + 8 && Spells(output, digits)
    ensures Pending(number * 256 + byte, Value(digits, 32), bits, buffer as int)
  {
    OneByte(number, Value(written, 32), pending, before as int, byte);
    buffer := before * 256 + byte as U16;
    output, bits, digits := WriteDigits(text, buffer, pending + 8, number * 256 + byte, written);
    buffer := (buffer as int % Pow2(bits)) as U16;
  }

  /** The inner loop: every complete group of five bits becomes a digit. */
  method WriteDigits(text: string, buffer: U16, pending: nat, ghost number: nat, ghost written: seq<nat>)
    returns (output: string, bits: nat, ghost digits: seq<nat>)
    requires pending <= 12 && Spells(text, written)
    requires Pending(number, Value(written, 32), pending, buffer as int % Pow2(pending))
    ensures bits < 5 && 5 * |digits| + bits == 5 * |written| + pending && Spells(output, digits)
    ensures Pending(number, Value(digits, 32), bits, buffer as int % Pow2(bits))
  {
    output, bits, digits := text, pending, written;
    while bits >= 5
      invariant bits <= 12 && 5 * |digits| + bits == 5 * |written| + pending && Spells(output, digits)
      invariant Pending(number, Value(digits, 32), bits, buffer as int % Pow2(bits))
    {
      OneDigit(number, Value(digits, 32), bits, buffer as int);
      bits := bits - 5;
      var index := (buffer as int / Pow2(bits)) % 32;
      Append(output, digits, index);
      output, digits := output + [Letter(index)], digits + [index];
    }
  }

  /** The text is the alphabet image of the digits. */
  predicate Spells(text: string, digits: seq<nat>) {
    Digits(digits, 32) && |text| == |digits| && forall i :: 0 <= i < |text| ==> text[i] == Letter(digits[i])
  }

  lemma Append(text: string, digits: seq<nat>, digit: nat)
    requires Spells(text, digits) && digit < 32
    ensures Spells(text + [Letter(digit)], digits + [digit])
    ensures Value(digits + [digit], 32) == Value(digits, 32) * 32 + digit
  {
    ValueSnoc(digits, digit, 32);
  }

  lemma SpelledSymbols(text: string, digits: seq<nat>)
    requires Spells(text, digits)
    ensures Canonical(text) && Symbols(text) == digits
  {
    forall i | 0 <= i < |text|
      ensures IsLetter(text[i]) && Symbol(text[i]) == digits[i]
    {
      SymbolOfLetter(digits[i]);
    }
  }

  // ---------------------------------------------------------------------------------------------
  // Decoding

  lemma OneSymbol(number: nat, written: nat, bits: nat, low: nat, value: nat)
    requires bits < 8 && Pending(number, written, bits, low) && value < 32
    ensures Pending(number * 32 + value, written, bits + 5, low * 32 + value)
    ensures low * 32 + value < 0x1_0000
  {
    var p := Pow2(bits);
    assert Pow2(bits + 5) == p * 32;
    assert (written * p + low) * 32 == written * (p * 32) + low * 32;
    ShiftMultiplies(written, bits);
    ShiftMultiplies(written, bits + 5);
  }

  lemma OneOctet(number: nat, written: nat, bits: nat, word: nat)
    requires 8 <= bits <= 12 && Pending(number, written, bits, word)
    ensures var p := Pow2(bits - 8);
            word / p < 256 && Pending(number, written * 256 + word / p, bits - 8, word % p)
  {
    var p := Pow2(bits - 8);
    var octet := word / p;
    assert Pow2(bits) == p * 256 && word == octet * p + word % p;
    if octet >= 256 { ProductGrows(255, octet, p); }
    assert (written * 256 + octet) * p == written * (p * 256) + octet * p;
    ShiftMultiplies(written, bits);
    ShiftMultiplies(written * 256 + octet, bits - 8);
  }

  /** A payload is accepted exactly when it is the encoding of some identifier, which is then returned. */
  method Decode(payload: string) returns (r: Result<seq<nat>>)
    ensures r.Ok? ==> EncodesTo(r.value, payload)
    ensures r.Err? ==> forall bytes :: !EncodesTo(bytes, payload)
    ensures r == Err(InvalidLength) <==> |payload| != ENCODED_LEN
    ensures r.Err? ==> r.error == InvalidLength || r.error == NonCanonicalEncoding
  {
    if |payload| != ENCODED_LEN { return Err(InvalidLength); }
    var output: seq<nat> := [];
    ghost var values: seq<nat> := [];
    var buffer: U16, bits := 0, 0;
    for j := 0 to |payload|
      invariant bits < 8 && 5 * j == 8 * |output| + bits && Digits(output, 256)
      invariant Spells(payload[..j], values)
      invariant Pending(Value(values, 32), Value(output, 256), bits, buffer as int)
    {
      if !IsLetter(payload[j]) { return Err(NonCanonicalEncoding); }
      var value := Symbol(payload[j]);
      assert payload[..j + 1] == payload[..j] + [Letter(value)];
      Append(payload[..j], values, value);
      output, buffer, bits := ReadSymbol(output, buffer, bits, value, Value(values, 32));
      values := values + [value];
    }
    assert payload[..|payload|] == payload && bits == 2;
    SpelledSymbols(payload, values);
    ShiftMultiplies(Value(output, 256), 2);
    if buffer as int % Pow2(bits) != 0 {
      return Err(NonCanonicalEncoding);
    }
    return Ok(output);
  }

  /** The body of the loop: one symbol enters the buffer, and a complete byte leaves. */
  method ReadSymbol(before: seq<nat>, word: U16, pending: nat, value: nat, ghost number: nat)
    returns (output: seq<nat>, buffer: U16, bits: nat)
    requires value < 32 && pending < 8 && Digits(before, 256)
    requires Pending(number, Value(before, 256), pending, word as int)
    ensures bits < 8 && 8 * |output| + bits == 8 * |before| + pending + 5 && Digits(output, 256)
    ensures Pending(number * 32 + value, Value(output, 256), bits, buffer as int)
  {
    OneSymbol(number, Value(before, 256), pending, word as int, value);
    output, buffer, bits := before, word * 32 + value as U16, pending + 5;
    if bits >= 8 {
      OneOctet(number * 32 + value, Value(before, 256), bits, buffer as int);
      bits := bits - 8;
      var octet := buffer as int / Pow2(bits);
      ValueSnoc(before, octet, 256);
      output := before + [octet];
      buffer := (buffer as int % Pow2(bits)) as U16;
    }
  }

  // ---------------------------------------------------------------------------------------------
  // What the codec promises

  /** One payload per identifier and one identifier per payload. */
  lemma EncodingIsOneToOne(a: seq<nat>, p: string, b: seq<nat>, q: string)
    requires EncodesTo(a, p) && EncodesTo(b, q)
    ensures a == b <==> p == q
  {
    if p == q {
      ValueIsInjective(a, b, 256);
    }
    if a == b {
      ValueIsInjective(Symbols(p), Symbols(q), 32);
      assert forall i :: 0 <= i < |p| ==> p[i] == Letter(Symbols(p)[i]) && q[i] == Letter(Symbols(q)[i]);
    }
  }

  method EncodeThenDecode(bytes: seq<nat>) returns (r: Result<seq<nat>>)
    requires IsIdentifier(bytes)
    ensures r == Ok(bytes)
  {
    var payload := Encode(bytes);
    r := Decode(payload);
    if r.Ok? { EncodingIsOneToOne(r.value, payload, bytes, payload); }
  }

  method DecodeThenEncode(payload: string) returns (r: Result<string>)
    ensures r.Ok? ==> r.value == payload
    ensures r.Err? ==> forall bytes :: !EncodesTo(bytes, payload)
  {
    var decoded := Decode(payload);
    if decoded.Err? { return Err(decoded.error); }
    var again := Encode(decoded.value);
    EncodingIsOneToOne(decoded.value, payload, decoded.value, again);
    return Ok(again);
  }

  /** Character order of payloads: the first place where they differ decides. */
  ghost predicate TextBefore(p: string, q: string) {
    exists k: nat :: k < |p| && k < |q| && p[..k] == q[..k] && p[k] < q[k]
  }

  lemma TextOrderIsDigitOrder(p: string, q: string)
    requires |p| == |q| && Canonical(p) && Canonical(q)
    ensures TextBefore(p, q) <==> Before(Symbols(p), Symbols(q))
  {
    var a, b := Symbols(p), Symbols(q);
    if TextBefore(p, q) {
      var k: nat :| k < |p| && k < |q| && p[..k] == q[..k] && p[k] < q[k];
      assert forall i :: 0 <= i < k ==> p[i] == p[..k][i] && q[i] == q[..k][i];
      assert SmallerAt(a, b, k);
    }
    if Before(a, b) {
      var k: nat :| SmallerAt(a, b, k);
      assert forall i :: 0 <= i < k ==> a[i] == a[..k][i] && b[i] == b[..k][i];
      assert p[..k] == q[..k] && p[k] < q[k];
    }
  }

  /** Payloads sort like the identifiers they stand for. */
  lemma EncodingPreservesOrder(a: seq<nat>, p: string, b: seq<nat>, q: string)
    requires EncodesTo(a, p) && EncodesTo(b, q)
    ensures Before(a, b) <==> TextBefore(p, q)
  {
    OrderIsNumeric(a, b, 256);
    OrderIsNumeric(Symbols(p), Symbols(q), 32);
    TextOrderIsDigitOrder(p, q);
  }

  // ---------------------------------------------------------------------------------------------
  // The payload as section 7 of RFC 4648 spells it

  function Power(base: nat, e: nat): nat { if e == 0 then 1 else Power(base, e - 1) * base }

  lemma PowerIsPositive(base: nat, e: nat)
    requires base > 0
    ensures Power(base, e) > 0
  {
    if e > 0 { PowerIsPositive(base, e - 1); }
  }

  lemma Distribute(p: nat, a: nat, s: nat, b: nat)
    ensures (p * a + s) * b == p * (a * b) + s * b
  {
  }

  lemma QuotientIs(x: nat, m: nat, q: nat, r: nat)
    requires r < m && x == q * m + r
    ensures x / m == q
  {
    assert x == x / m * m + x % m;
    DivisionIsUnique(x / m, x % m, q, r, m);
  }

  lemma DivideTwice(x: nat, a: nat, b: nat)
    requires a > 0 && b > 0
    ensures a * b > 0 && x / (a * b) == x / b / a
  {
    var q, r := x / b, x % b;
    var p, s := q / a, q % a;
    Distribute(p, a, s, b);
    ProductGrows(s, a, b);
    QuotientIs(x, a * b, p, s * b + r);
  }

  /** Digit k of a number with n digits. */
  function DigitOf(number: nat, base: nat, n: nat, k: nat): nat
    requires base > 0 && k < n
  {
    PowerIsPositive(base, n - 1 - k);
    number / Power(base, n - 1 - k) % base
  }

  lemma DigitOfQuotient(number: nat, base: nat, n: nat, k: nat)
    requires base > 0 && k < n
    ensures DigitOf(number, base, n + 1, k) == DigitOf(number / base, base, n, k)
  {
    PowerIsPositive(base, n - 1 - k);
    DivideTwice(number, Power(base, n - 1 - k), base);
  }

  lemma QuotientIsSmaller(x: nat, a: nat, b: nat)
    requires b > 0 && x < a * b
    ensures x / b < a
  {
    assert x == x / b * b + x % b;
    if a <= x / b { ProductGrows(a, x / b + 1, b); }
  }

  /** A string of digits spells a number exactly if each digit is the number's. */
  lemma {:induction false} DigitsSpell(digits: seq<nat>, base: nat, number: nat)
    requires base > 0 && Digits(digits, base) && number < Power(base, |digits|)
    ensures Value(digits, base) == number <==>
            forall k :: 0 <= k < |digits| ==> digits[k] == DigitOf(number, base, |digits|, k)
  {
    if digits != [] {
      var n := |digits| - 1;
      var front := digits[..n];
      assert number == number / base * base + number % base;
      QuotientIsSmaller(number, Power(base, n), base);
      DigitsSpell(front, base, number / base);
      forall k | 0 <= k < n
        ensures DigitOf(number, base, n + 1, k) == DigitOf(number / base, base, n, k) && front[k] == digits[k]
      {
        DigitOfQuotient(number, base, n, k);
      }
      assert DigitOf(number, base, n + 1, n) == number % base;
      if Value(digits, base) == number {
        DivisionIsUnique(Value(front, base), digits[n], number / base, number % base, base);
      }
    }
  }

  lemma {:induction false} ValueIsBounded(digits: seq<nat>, base: nat)
    requires base > 0 && Digits(digits, base)
    ensures Value(digits, base) < Power(base, |digits|)
  {
    if digits != [] {
      var n := |digits| - 1;
      ValueIsBounded(digits[..n], base);
      ProductGrows(Value(digits[..n], base), Power(base, n), base);
    }
  }

  /** Sixteen bytes and two bits are as much as twenty-six digits. */
  lemma PayloadHasRoom()
    ensures Power(256, 16) * 4 == Power(32, 26)
  {
    assert Power(256, 4) == 0x1_0000_0000;
    assert Power(256, 8) == 0x1_0000_0000_0000_0000;
    assert Power(256, 12) == 0x1_0000_0000_0000_0000_0000_0000;
    assert Power(32, 8) == 0x100_0000_0000;
    assert Power(32, 16) == 0x1_0000_0000_0000_0000_0000;
    assert Power(32, 24) == 0x100_0000_0000_0000_0000_0000_0000_0000;
  }

  lemma LetterIsInAlphabet(value: nat)
    requires value < 32
    ensures Letter(value) == "0123456789abcdefghijklmnopqrstuv"[value]
  {
  }

  /**
   * A payload encodes an identifier exactly if it consists of twenty-six characters of the alphabet, the one for each
   * base-32 digit of the identifier's 128 bits followed by two zero bits.
   */
  lemma PayloadIsBase32Hex(bytes: seq<nat>, payload: string)
    ensures EncodesTo(bytes, payload) <==>
            IsIdentifier(bytes) && |payload| == 26 && forall k :: 0 <= k < 26 ==>
              payload[k] == "0123456789abcdefghijklmnopqrstuv"[DigitOf(Value(bytes, 256) * 4, 32, 26, k)]
  {
    if IsIdentifier(bytes) && |payload| == 26 {
      var number := Value(bytes, 256) * 4;
      ValueIsBounded(bytes, 256);
      PayloadHasRoom();
      forall k | 0 <= k < 26
        ensures IsLetter(Letter(DigitOf(number, 32, 26, k)))
        ensures Letter(DigitOf(number, 32, 26, k)) == "0123456789abcdefghijklmnopqrstuv"[DigitOf(number, 32, 26, k)]
        ensures Symbol(Letter(DigitOf(number, 32, 26, k))) == DigitOf(number, 32, 26, k)
      {
        LetterIsInAlphabet(DigitOf(number, 32, 26, k));
        SymbolOfLetter(DigitOf(number, 32, 26, k));
      }
      if Canonical(payload) {
        DigitsSpell(Symbols(payload), 32, number);
      }
    }
  }

  // ---------------------------------------------------------------------------------------------
  // Typed identifiers

  /** Version 7 in the high half of byte 6, variant 10 in the high bits of byte 8 (RFC 9562, section 5.7). */
  predicate IsV7(bytes: seq<nat>) { IsIdentifier(bytes) && bytes[6] / 16 == 7 && bytes[8] / 64 == 2 }

  method Format(prefix: string, bytes: seq<nat>) returns (text: string)
    requires IsIdentifier(bytes)
    ensures |text| == |prefix| + 1 + ENCODED_LEN && text[..|prefix| + 1] == prefix + "_"
    ensures EncodesTo(bytes, text[|prefix| + 1..])
  {
    var payload := Encode(bytes);
    text := prefix + "_" + payload;
    assert text[|prefix| + 1..] == payload && text[..|prefix| + 1] == prefix + "_";
  }

  method Parse(prefix: string, text: string) returns (r: Result<seq<nat>>)
    ensures r.Ok? ==> IsV7(r.value) && |prefix| < |text| && text[..|prefix| + 1] == prefix + "_" &&
                      EncodesTo(r.value, text[|prefix| + 1..])
    ensures r == Err(WrongPrefix) <==> !(|prefix| < |text| && text[..|prefix| + 1] == prefix + "_")
    ensures r.Err? && r.error != WrongPrefix ==> forall bytes :: IsV7(bytes) ==> !EncodesTo(bytes, text[|prefix| + 1..])
  {
    if |text| <= |prefix| || text[..|prefix| + 1] != prefix + "_" { return Err(WrongPrefix); }
    r := Decode(text[|prefix| + 1..]);
    if r.Ok? && !IsV7(r.value) {
      forall bytes | IsV7(bytes)
        ensures !EncodesTo(bytes, text[|prefix| + 1..])
      {
        if EncodesTo(bytes, text[|prefix| + 1..]) {
          EncodingIsOneToOne(bytes, text[|prefix| + 1..], r.value, text[|prefix| + 1..]);
        }
      }
      return Err(NotUuidV7);
    }
  }

  /** No identifier of one kind parses as another kind. */
  lemma KindsNeverMix(p: string, q: string, rest: string)
    requires '_' !in p && '_' !in q && p != q
    requires |q| < |p + "_" + rest|
    ensures (p + "_" + rest)[..|q| + 1] != q + "_"
  {
    var text := p + "_" + rest;
    assert text[|p|] == '_';
    if |q| < |p| {
      assert text[|q|] == p[|q|];
      assert text[..|q| + 1][|q|] != '_';
    } else if |p| < |q| {
      assert text[..|q| + 1][|p|] == '_' && (q + "_")[|p|] == q[|p|];
    } else {
      var i :| 0 <= i < |p| && p[i] != q[i];
      assert text[..|q| + 1][i] == p[i] && (q + "_")[i] == q[i];
    }
  }
}
