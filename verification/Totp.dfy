/** RFC 6238 codes over an abstract HMAC: dynamic truncation, the printed digits,
    the ±1 step search and the constant-time comparison it uses. */
module Totp {
  import opened Kv
  import opened Words
  import Decimal
  import Base32
  import Base32Loops

  const PERIOD: nat := 30
  const DIGITS: nat := 6
  const U64: nat := 0x1_0000_0000_0000_0000

  type Digest = d: seq<Byte> | |d| == 20 witness seq(20, _ => 0)

  // ----- dynamic truncation -----

  function Offset(d: Digest): (o: nat)
    ensures o + 3 < |d|
  {
    AndMask(d[19], 4);
    assert Pow2(4) == 16;
    And(d[19], 0x0f)
  }

  function Truncated(d: Digest): nat {
    var o := Offset(d);
    Or(Or(Or(Shl(And(d[o], 0x7f), 24, 32), Shl(d[o + 1], 16, 32)), Shl(d[o + 2], 8, 32)), d[o + 3])
  }

  /** Four bytes read as a big-endian number. */
  function BigEndian(d: Digest, o: nat): nat
    requires o + 3 < |d|
  {
    Join(d[o], d[o + 1], d[o + 2], d[o + 3])
  }

  /** RFC 4226 section 5.3: the word that the low nibble of the last byte points to,
      without its sign bit. */
  function Hotp(d: Digest): nat { BigEndian(d, d[19] % 16) % 0x8000_0000 }

  function Join(a: nat, b: nat, c: nat, d: nat): nat {
    ((a * 256 + b) * 256 + c) * 256 + d
  }

  lemma PowersOfTwo()
    ensures Pow2(7) == 0x80 && Pow2(8) == 0x100 && Pow2(16) == 0x1_0000 && Pow2(24) == 0x100_0000
    ensures Pow2(31) == 0x8000_0000 && Pow2(32) == 0x1_0000_0000
  {
    Pow2Sum(8, 8);
    Pow2Sum(16, 8);
    Pow2Sum(16, 16);
    assert Pow2(32) == 2 * Pow2(31);
  }

  /** The mask, the shifts and the ors assemble the word at the offset that the last byte
      names, without its sign bit. */
  lemma TruncatedIsWord(d: Digest)
    ensures Truncated(d) == BigEndian(d, d[19] % 16) % 0x8000_0000
  {
    AndMask(d[19], 4);
    assert Pow2(4) == 16;
    var o := Offset(d);
    Assembled(d[o], d[o + 1], d[o + 2], d[o + 3]);
  }

  lemma Assembled(a: nat, b: nat, c: nat, d: nat)
    requires a < 256 && b < 256 && c < 256 && d < 256
    ensures Or(Or(Or(Shl(And(a, 0x7f), 24, 32), Shl(b, 16, 32)), Shl(c, 8, 32)), d) == Join(a, b, c, d) % 0x8000_0000
  {
    Shifted(a, b, c);
    Ored(a % 128, b, c, d);
    DropSign(a, b, c, d);
  }

  lemma Ored(a: nat, b: nat, c: nat, d: nat)
    requires a < 256 && b < 256 && c < 256 && d < 256
    ensures Or(Or(Or(a * 0x100_0000, b * 0x1_0000), c * 0x100), d) == Join(a, b, c, d)
  {
    Placed(a, b * 0x1_0000, 24, 0x100_0000);
    assert a * 0x100_0000 + b * 0x1_0000 == (a * 256 + b) * 0x1_0000;
    Placed(a * 256 + b, c * 0x100, 16, 0x1_0000);
    assert (a * 256 + b) * 0x1_0000 + c * 0x100 == ((a * 256 + b) * 256 + c) * 0x100;
    Placed((a * 256 + b) * 256 + c, d, 8, 0x100);
  }

  lemma DropSign(a: nat, b: nat, c: nat, d: nat)
    requires a < 256 && b < 256 && c < 256 && d < 256
    ensures Join(a % 128, b, c, d) == Join(a, b, c, d) % 0x8000_0000
  {
    assert a == 128 * (a / 128) + a % 128;
    Remainder(Join(a, b, c, d), 0x8000_0000, a / 128, Join(a % 128, b, c, d));
  }

  lemma Shifted(a: nat, b: nat, c: nat)
    requires a < 256 && b < 256 && c < 256
    ensures Shl(And(a, 0x7f), 24, 32) == a % 128 * 0x100_0000
    ensures Shl(b, 16, 32) == b * 0x1_0000 && Shl(c, 8, 32) == c * 0x100
  {
    PowersOfTwo();
    AndMask(a, 7);
  }

  lemma Placed(x: nat, y: nat, k: nat, m: nat)
    requires k in {8, 16, 24} && m == (if k == 8 then 0x100 else if k == 16 then 0x1_0000 else 0x100_0000) && y < m
    ensures Or(x * m, y) == x * m + y
  {
    PowersOfTwo();
    OrDisjoint(x, y, k);
  }

  // ----- the printed code -----

  function PadLeft(s: string, width: nat): string
    decreases width - |s|
  {
    if |s| >= width then s else PadLeft("0" + s, width)
  }

  function Printed(d: Digest): string {
    PadLeft(Decimal.Text(Truncated(d) % 1_000_000), DIGITS)
  }

  lemma {:induction false} TextLength(n: nat, digits: nat)
    requires digits > 0 && n < Power10(digits)
    ensures |Decimal.Text(n)| <= digits
  {
    if n >= 10 {
      TextLength(n / 10, digits - 1);
    }
  }

  function Power10(k: nat): nat { if k == 0 then 1 else 10 * Power10(k - 1) }

  ghost predicate AllDigits(s: string) {
    forall i :: 0 <= i < |s| ==> Decimal.IsDigit(s[i])
  }

  lemma {:induction false} LeadingZero(s: string)
    requires AllDigits(s)
    ensures AllDigits("0" + s) && Decimal.Value("0" + s) == Decimal.Value(s)
  {
    if s == "" {
      assert Decimal.Value("0"[..0]) == 0;
      assert "0" + s == "0";
    } else {
      var t := s[..|s| - 1];
      LeadingZero(t);
      assert ("0" + s)[..|s|] == "0" + t;
    }
  }

  lemma {:induction false} Padded(s: string, width: nat)
    requires AllDigits(s) && |s| <= width
    ensures var r := PadLeft(s, width); |r| == width && AllDigits(r) && Decimal.Value(r) == Decimal.Value(s)
    decreases width - |s|
  {
    if |s| < width {
      LeadingZero(s);
      Padded("0" + s, width);
    }
  }

  /** Exactly six digits, whose value is the truncated word modulo 10^6. */
  lemma PrintedValue(d: Digest)
    ensures |Printed(d)| == DIGITS && AllDigits(Printed(d))
    ensures Decimal.Value(Printed(d)) == BigEndian(d, d[19] % 16) % 0x8000_0000 % 1_000_000
  {
    TruncatedIsWord(d);
    var otp := Truncated(d) % 1_000_000;
    assert Power10(6) == 1_000_000;
    TextLength(otp, 6);
    Decimal.ValueText(otp);
    Padded(Decimal.Text(otp), DIGITS);
  }

  // ----- comparison and search -----

  method ConstantTimeEq(a: seq<Byte>, b: seq<Byte>) returns (equal: bool)
    ensures equal == (a == b)
  {
    if |a| != |b| {
      return false;
    }
    var diff: nat := 0;
    for i := 0 to |a|
      invariant diff == 0 <==> a[..i] == b[..i]
    {
      XorZero(a[i], b[i]);
      OrZero(diff, Xor(a[i], b[i]));
      diff := Or(diff, Xor(a[i], b[i]));
      assert a[..i + 1] == a[..i] + [a[i]] && b[..i + 1] == b[..i] + [b[i]];
    }
    assert a[..|a|] == a && b[..|b|] == b;
    equal := diff == 0;
  }

  /** `wrapping_sub(1)` on the current step, then the step and its successor. */
  function Candidates(now: nat): seq<nat> {
    var step := now / PERIOD;
    [if step == 0 then U64 - 1 else step - 1, step, step + 1]
  }

  /** The bytes of a text made of ASCII characters. */
  function Ascii(s: string): (r: seq<Byte>)
    ensures |r| == |s|
  {
    seq(|s|, i requires 0 <= i < |s| => s[i] as int % 256)
  }

  /** `to_be_bytes`: the low `n` bytes of a number, the highest first. */
  function ToBytes(x: nat, n: nat): seq<Byte> {
    if n == 0 then [] else ToBytes(x / 256, n - 1) + [x % 256]
  }

  function ComputeTotp(hmac: (seq<Byte>, seq<Byte>) -> Digest, secret: seq<Byte>, step: nat): string {
    Printed(hmac(secret, ToBytes(step, 8)))
  }

  // ----- what a code is -----

  /** Bytes read as a big-endian number. */
  function Base256(m: seq<Byte>): nat { if m == [] then 0 else 256 * Base256(m[..|m| - 1]) + m[|m| - 1] }

  ghost predicate AsciiDigits(code: seq<Byte>) { forall i :: 0 <= i < |code| ==> 0x30 <= code[i] <= 0x39 }

  /** ASCII digits read as a decimal number. */
  function Base10(code: seq<Byte>): int {
    if code == [] then 0 else 10 * Base10(code[..|code| - 1]) - 0x30 + code[|code| - 1]
  }

  /** RFC 6238 section 4: six digits, the truncation modulo 10^6 of the HMAC of the step's
      eight bytes. */
  ghost predicate CodeOf(hmac: (seq<Byte>, seq<Byte>) -> Digest, secret: seq<Byte>, step: nat, code: seq<Byte>) {
    && |code| == 6 && AsciiDigits(code)
    && exists m: seq<Byte> :: |m| == 8 && Base256(m) == step && Base10(code) == Hotp(hmac(secret, m)) % 1_000_000
  }

  lemma {:induction false} BytesRead(x: nat, n: nat, bound: nat)
    requires bound == Pow256(n) && x < bound
    ensures |ToBytes(x, n)| == n && Base256(ToBytes(x, n)) == x
  {
    if n > 0 {
      assert x / 256 < Pow256(n - 1);
      BytesRead(x / 256, n - 1, Pow256(n - 1));
      assert ToBytes(x, n)[..n - 1] == ToBytes(x / 256, n - 1);
    }
  }

  function Pow256(n: nat): nat { if n == 0 then 1 else 256 * Pow256(n - 1) }

  lemma {:induction false} SameBytes(a: seq<Byte>, b: seq<Byte>)
    requires |a| == |b| && Base256(a) == Base256(b)
    ensures a == b
  {
    if a != [] {
      SameBytes(a[..|a| - 1], b[..|b| - 1]);
      assert a == a[..|a| - 1] + [a[|a| - 1]] && b == b[..|b| - 1] + [b[|b| - 1]];
    }
  }

  lemma {:induction false} SameDigits(a: seq<Byte>, b: seq<Byte>)
    requires |a| == |b| && AsciiDigits(a) && AsciiDigits(b) && Base10(a) == Base10(b)
    ensures a == b
  {
    if a != [] {
      SameDigits(a[..|a| - 1], b[..|b| - 1]);
      assert a == a[..|a| - 1] + [a[|a| - 1]] && b == b[..|b| - 1] + [b[|b| - 1]];
    }
  }

  lemma {:induction false} AsciiValue(s: string)
    requires AllDigits(s)
    ensures AsciiDigits(Ascii(s)) && Base10(Ascii(s)) == Decimal.Value(s)
  {
    if s != "" {
      var n := |s| - 1;
      AsciiValue(s[..n]);
      assert Ascii(s)[..n] == Ascii(s[..n]);
    }
  }

  /** A comparison with the printed code decides whether the bytes are the code of the step. */
  lemma PrintedIsCode(hmac: (seq<Byte>, seq<Byte>) -> Digest, secret: seq<Byte>, step: nat, code: seq<Byte>)
    requires step < U64
    ensures code == Ascii(ComputeTotp(hmac, secret, step)) <==> CodeOf(hmac, secret, step, code)
  {
    var m := ToBytes(step, 8);
    assert Pow256(8) == U64;
    BytesRead(step, 8, U64);
    TruncatedIsWord(hmac(secret, m));
    PrintedValue(hmac(secret, m));
    AsciiValue(ComputeTotp(hmac, secret, step));
    if CodeOf(hmac, secret, step, code) {
      var k: seq<Byte> :| |k| == 8 && Base256(k) == step && Base10(code) == Hotp(hmac(secret, k)) % 1_000_000;
      SameBytes(k, m);
      SameDigits(code, Ascii(ComputeTotp(hmac, secret, step)));
    }
  }

  /** The example of RFC 4226 section 5.4: the last byte is 0x5a, and 50 ef 7f 19 start at byte 10. */
  lemma Rfc4226Example(d: Digest)
    requires d[19] == 0x5a && d[10] == 0x50 && d[11] == 0xef && d[12] == 0x7f && d[13] == 0x19
    ensures Hotp(d) % 1_000_000 == 872_921
  {
    assert d[19] % 16 == 10;
  }

  // ----- the search -----

  method IsCode(hmac: (seq<Byte>, seq<Byte>) -> Digest, secret: seq<Byte>, step: nat, code: seq<Byte>)
    returns (equal: bool)
    requires step < U64
    ensures equal <==> CodeOf(hmac, secret, step, code)
  {
    var expected := ComputeTotp(hmac, secret, step);
    PrintedIsCode(hmac, secret, step, code);
    equal := ConstantTimeEq(code, Ascii(expected));
  }

  /** The first candidate step whose code was presented, if the secret decodes. */
  method VerifyTotpStep(hmac: (seq<Byte>, seq<Byte>) -> Digest, secretB32: string, code: seq<Byte>, now: nat)
    returns (r: Option<nat>)
    requires now < U64
    ensures r.Some? ==>
              && Base32.Decoded(secretB32).Some?
              && exists i :: 0 <= i < 3 && r.value == Candidates(now)[i]
                   && CodeOf(hmac, Base32.Decoded(secretB32).value, r.value, code)
                   && forall j :: 0 <= j < i ==>
                        !CodeOf(hmac, Base32.Decoded(secretB32).value, Candidates(now)[j], code)
    ensures r.None? <==>
              || Base32.Decoded(secretB32).None?
              || forall i :: 0 <= i < 3 ==> !CodeOf(hmac, Base32.Decoded(secretB32).value, Candidates(now)[i], code)
  {
    var decoded := Base32Loops.Decode(secretB32);
    match decoded {
      case None => r := None;
      case Some(secret) =>
        for i := 0 to 3
          invariant forall j :: 0 <= j < i ==> !CodeOf(hmac, secret, Candidates(now)[j], code)
        {
          var step := Candidates(now)[i];
          var equal := IsCode(hmac, secret, step, code);
          if equal {
            return Some(step);
          }
        }
        r := None;
    }
  }
}
