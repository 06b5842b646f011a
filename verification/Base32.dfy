/** The base32 codec of `totp.rs`. Both loops push bits into a 64-bit buffer that
    is never masked; the specification regroups the bit string, as RFC 4648
    section 6 describes it. */
module Base32 {
  import opened Kv
  import opened Words

  const ALPHABET: string := "ABCDEFGHIJKLMNOPQRSTUVWXYZ234567"

  // ----- specification -----

  function Number(b: Bits): (n: nat)
    ensures n < Pow2(|b|) && Low(n, |b|) == b
  {
    if b == [] then 0
    else
      var n := 2 * Number(b[..|b| - 1]) + if b[|b| - 1] then 1 else 0;
      assert n / 2 == Number(b[..|b| - 1]);
      n
  }

  function BytesBits(data: seq<Byte>): Bits {
    if data == [] then [] else Low(data[0], 8) + BytesBits(data[1..])
  }

  function BytesOf(b: Bits): seq<Byte> {
    if |b| < 8 then [] else [ByteOf(b[..8])] + BytesOf(b[8..])
  }

  function ByteOf(b: Bits): (n: Byte)
    requires |b| == 8
    ensures Low(n, 8) == b
  {
    assert Pow2(8) == 256;
    Number(b)
  }

  /** The alphabet: the letters, then the digits 2 to 7. */
  function Symbol(n: nat): char
    requires n < 32
  {
    if n < 26 then 'A' + n as char else '2' + (n - 26) as char
  }

  /** Groups of five bits, the last one filled up with zeros. */
  function Symbols(b: Bits): string {
    if b == [] then ""
    else if |b| <= 5 then [SymbolOf(b + Zeros(5 - |b|))]
    else [SymbolOf(b[..5])] + Symbols(b[5..])
  }

  function SymbolOf(b: Bits): char
    requires |b| == 5
  {
    assert Pow2(5) == 32;
    Symbol(Number(b))
  }

  function Encoded(data: seq<Byte>): string { Symbols(BytesBits(data)) }

  /** The value of a symbol, in either case; None for padding, spaces and the rest. */
  function Code(c: char): (r: Option<nat>)
    ensures r.Some? ==> r.value < 32
  {
    if 'A' <= c <= 'Z' then Some(c as int - 'A' as int)
    else if '2' <= c <= '7' then Some(c as int - '2' as int + 26)
    else if 'a' <= c <= 'z' then Some(c as int - 'a' as int)
    else None
  }

  predicate Skipped(c: char) { c == '=' || c == ' ' }

  predicate Readable(s: string) {
    forall i :: 0 <= i < |s| ==> Code(s[i]).Some? || Skipped(s[i])
  }

  function CodeBits(s: string): Bits {
    if s == "" then []
    else (match Code(s[0]) case Some(v) => Low(v, 5) case None => []) + CodeBits(s[1..])
  }

  function Decoded(s: string): Option<seq<Byte>> {
    if Readable(s) then Some(BytesOf(CodeBits(s))) else None
  }

  // ----- lemmas -----

  lemma CodeOfSymbol(n: nat)
    requires n < 32
    ensures Code(Symbol(n)) == Some(n)
  {
  }

  lemma AlphabetSymbol(n: nat)
    requires n < 32
    ensures ALPHABET[n] == Symbol(n)
  {
    if {
      case n < 8 => assert n == 0 || n == 1 || n == 2 || n == 3 || n == 4 || n == 5 || n == 6 || n == 7;
      case 8 <= n < 16 => assert n == 8 || n == 9 || n == 10 || n == 11 || n == 12 || n == 13 || n == 14 || n == 15;
      case 16 <= n < 24 => assert n == 16 || n == 17 || n == 18 || n == 19 || n == 20 || n == 21 || n == 22 || n == 23;
      case 24 <= n => assert n == 24 || n == 25 || n == 26 || n == 27 || n == 28 || n == 29 || n == 30 || n == 31;
    }
  }

  lemma {:induction false} BytesBitsAppend(data: seq<Byte>, b: Byte)
    ensures BytesBits(data + [b]) == BytesBits(data) + Low(b, 8)
  {
    if data == [] {
      assert data + [b] == [b] && BytesBits([b]) == Low(b, 8) + BytesBits([]);
    } else {
      assert (data + [b])[1..] == data[1..] + [b];
      BytesBitsAppend(data[1..], b);
      assert Low(data[0], 8) + (BytesBits(data[1..]) + Low(b, 8)) == BytesBits(data) + Low(b, 8);
    }
  }

  lemma {:induction false} CodeBitsAppend(s: string, c: char)
    ensures CodeBits(s + [c]) == CodeBits(s) + match Code(c) case Some(v) => Low(v, 5) case None => []
  {
    if s == "" {
      assert s + [c] == [c] && CodeBits([c][1..]) == [];
    } else {
      assert (s + [c])[1..] == s[1..] + [c];
      CodeBitsAppend(s[1..], c);
    }
  }

  lemma {:induction false} BytesOfBits(data: seq<Byte>, rest: Bits)
    requires |rest| < 8
    ensures BytesOf(BytesBits(data) + rest) == data
  {
    var b := BytesBits(data) + rest;
    if data != [] {
      assert b[..8] == Low(data[0], 8) && b[8..] == BytesBits(data[1..]) + rest;
      assert Pow2(8) == 256;
      LowInjective(ByteOf(b[..8]), data[0], 8);
      BytesOfBits(data[1..], rest);
    }
  }

  lemma CodeBitsOfSymbol(g: Bits, t: string)
    requires |g| == 5
    ensures CodeBits([SymbolOf(g)] + t) == g + CodeBits(t)
    ensures Readable(t) ==> Readable([SymbolOf(g)] + t)
  {
    assert Pow2(5) == 32;
    CodeOfSymbol(Number(g));
    assert ([SymbolOf(g)] + t)[1..] == t;
  }

  lemma {:induction false} SymbolsReadable(b: Bits)
    ensures Readable(Symbols(b))
  {
    if b == [] {
    } else if |b| <= 5 {
      CodeBitsOfSymbol(b + Zeros(5 - |b|), "");
    } else {
      SymbolsReadable(b[5..]);
      CodeBitsOfSymbol(b[..5], Symbols(b[5..]));
    }
  }

  /** Reading back the symbols gives the bits and fewer than five zeros. */
  lemma {:induction false} BitsOfSymbols(b: Bits) returns (pad: nat)
    ensures pad < 5 && CodeBits(Symbols(b)) == b + Zeros(pad)
  {
    if |b| <= 5 {
      pad := ShortSymbols(b);
    } else {
      pad := BitsOfSymbols(b[5..]);
      LongSymbols(b, Zeros(pad));
    }
  }

  lemma ShortSymbols(b: Bits) returns (pad: nat)
    requires |b| <= 5
    ensures pad < 5 && CodeBits(Symbols(b)) == b + Zeros(pad)
  {
    if b == [] {
      pad := 0;
    } else {
      pad := 5 - |b|;
      var g := b + Zeros(pad);
      CodeBitsOfSymbol(g, "");
      assert [SymbolOf(g)] + "" == [SymbolOf(g)] && g + [] == g;
    }
  }

  lemma LongSymbols(b: Bits, z: Bits)
    requires |b| > 5 && CodeBits(Symbols(b[5..])) == b[5..] + z
    ensures CodeBits(Symbols(b)) == b + z
  {
    var t := Symbols(b[5..]);
    assert Symbols(b) == [SymbolOf(b[..5])] + t;
    CodeBitsOfSymbol(b[..5], t);
    assert CodeBits(Symbols(b)) == b[..5] + (b[5..] + z);
    Glue(b, z);
  }

  lemma Glue(b: Bits, z: Bits)
    requires |b| > 5
    ensures b[..5] + (b[5..] + z) == b + z
  {
  }

  ghost predicate InAlphabet(c: char) { exists n :: 0 <= n < 32 && c == Symbol(n) }

  /** A string over the alphabet that carries these bits is their encoding. */
  lemma {:induction false} SymbolsUnique(s: string, b: Bits, pad: nat)
    requires pad < 5 && CodeBits(s) == b + Zeros(pad) && |b| + pad == 5 * |s|
    requires forall i :: 0 <= i < |s| ==> InAlphabet(s[i])
    ensures s == Symbols(b)
  {
    if s != "" {
      var all := b + Zeros(pad);
      FirstSymbol(s, all);
      if |b| <= 5 {
        assert |s| == 1;
        assert all[..5] == b + Zeros(5 - |b|);
      } else {
        assert all[..5] == b[..5] && all[5..] == b[5..] + Zeros(pad);
        SymbolsUnique(s[1..], b[5..], pad);
      }
    }
  }

  lemma FirstSymbol(s: string, all: Bits)
    requires s != "" && InAlphabet(s[0]) && CodeBits(s) == all
    ensures |all| >= 5 && s[0] == SymbolOf(all[..5]) && all[5..] == CodeBits(s[1..])
  {
    assert Pow2(5) == 32;
    var n :| 0 <= n < 32 && s[0] == Symbol(n);
    CodeOfSymbol(n);
    assert all[..5] == Low(n, 5) && all[5..] == CodeBits(s[1..]);
    LowInjective(n, Number(all[..5]), 5);
  }

  // ----- the round trip -----

  /** Drops what the decoder skips and undoes lower case. */
  function Normal(s: string): string {
    if s == "" then ""
    else (match Code(s[0]) case Some(v) => [Symbol(v)] case None => "") + Normal(s[1..])
  }

  lemma {:induction false} NormalKeepsBits(s: string)
    ensures CodeBits(Normal(s)) == CodeBits(s)
  {
    if s != "" {
      NormalKeepsBits(s[1..]);
      var rest := Normal(s[1..]);
      match Code(s[0]) {
        case None => assert Normal(s) == rest;
        case Some(v) =>
          CodeOfSymbol(v);
          assert ([Symbol(v)] + rest)[1..] == rest;
      }
    }
  }

  lemma {:induction false} NormalOfSymbols(b: Bits)
    ensures Normal(Symbols(b)) == Symbols(b)
  {
    assert Pow2(5) == 32;
    if b == [] {
    } else if |b| <= 5 {
      CodeOfSymbol(Number(b + Zeros(5 - |b|)));
      assert Symbols(b)[1..] == "";
    } else {
      CodeOfSymbol(Number(b[..5]));
      assert Symbols(b)[1..] == Symbols(b[5..]);
      NormalOfSymbols(b[5..]);
    }
  }

  /** Decoding undoes encoding, for data of every length. */
  lemma RoundTrip(data: seq<Byte>)
    ensures Decoded(Encoded(data)) == Some(data)
  {
    var pad := BitsOfSymbols(BytesBits(data));
    SymbolsReadable(BytesBits(data));
    BytesOfBits(data, Zeros(pad));
  }

  // ----- the round trip of a text -----

  lemma {:induction false} NormalIsAlphabet(s: string)
    ensures forall i :: 0 <= i < |Normal(s)| ==> InAlphabet(Normal(s)[i])
    ensures |CodeBits(Normal(s))| == 5 * |Normal(s)|
  {
    if s != "" {
      NormalIsAlphabet(s[1..]);
      var rest := Normal(s[1..]);
      match Code(s[0]) {
        case None => assert Normal(s) == rest;
        case Some(v) =>
          CodeOfSymbol(v);
          assert InAlphabet(Symbol(v));
          assert Normal(s) == [Symbol(v)] + rest && Normal(s)[1..] == rest;
      }
    }
  }

  lemma {:induction false} BitsOfBytes(b: Bits)
    ensures |BytesOf(b)| == |b| / 8 && b == BytesBits(BytesOf(b)) + b[8 * (|b| / 8)..]
  {
    if |b| >= 8 {
      BitsOfBytes(b[8..]);
      assert BytesOf(b)[1..] == BytesOf(b[8..]);
      assert b[8..][8 * (|b[8..]| / 8)..] == b[8 * (|b| / 8)..];
      assert b == b[..8] + b[8..];
    }
  }

  lemma {:induction false} BytesBitsLength(data: seq<Byte>)
    ensures |BytesBits(data)| == 8 * |data|
  {
    if data != [] {
      BytesBitsLength(data[1..]);
    }
  }

  /** The bits of a text that make up no whole byte. */
  function Unused(s: string): Bits {
    var b := CodeBits(s);
    b[8 * (|b| / 8)..]
  }

  /** Whichever text an authenticator shows: up to case, spaces and padding it is the
      encoding of what it decodes to exactly if fewer than five bits are left over, and
      those are zero. */
  lemma RoundTripOfText(data: seq<Byte>, s: string)
    requires Readable(s)
    ensures Normal(s) == Encoded(data) <==>
              Decoded(s) == Some(data) && |Unused(s)| < 5 && Unused(s) == Zeros(|Unused(s)|)
  {
    if Normal(s) == Encoded(data) {
      EncodingLeavesZeros(data, s);
    }
    if Decoded(s) == Some(data) && |Unused(s)| < 5 && Unused(s) == Zeros(|Unused(s)|) {
      NormalKeepsBits(s);
      BitsOfBytes(CodeBits(s));
      BytesBitsLength(data);
      NormalIsAlphabet(s);
      SymbolsUnique(Normal(s), BytesBits(data), |Unused(s)|);
    }
  }

  lemma EncodingLeavesZeros(data: seq<Byte>, s: string)
    requires Readable(s) && Normal(s) == Encoded(data)
    ensures Decoded(s) == Some(data) && |Unused(s)| < 5 && Unused(s) == Zeros(|Unused(s)|)
  {
    NormalKeepsBits(s);
    RoundTrip(data);
    var pad := BitsOfSymbols(BytesBits(data));
    BytesBitsLength(data);
    LeftOver(s, BytesBits(data), Zeros(pad), |data|);
  }

  lemma LeftOver(s: string, b: Bits, z: Bits, n: nat)
    requires CodeBits(s) == b + z && |b| == 8 * n && |z| < 8
    ensures Unused(s) == z
  {
    assert |CodeBits(s)| / 8 == n;
  }

  /** So a decoder of this kind takes texts that no encoder writes. */
  lemma LooseText()
    ensures Decoded("A") == Some([]) && Normal("A") != Encoded([])
  {
    assert CodeBits("A") == Low(0, 5) + CodeBits("A"[1..]);
    assert Normal("A") == [Symbol(0)] + Normal("A"[1..]);
  }
}
