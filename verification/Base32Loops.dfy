/** The encoder and decoder loops, proved against the bit-string specification. */
module Base32Loops {
  import opened Kv
  import opened Words
  import opened Base32

  const WIDTH: nat := 64

  ghost predicate OverAlphabet(s: string) {
    forall i :: 0 <= i < |s| ==> exists n :: 0 <= n < 32 && s[i] == Symbol(n)
  }

  lemma AppendSymbol(s: string, idx: nat)
    requires OverAlphabet(s) && idx < 32
    ensures OverAlphabet(s + [ALPHABET[idx]])
    ensures CodeBits(s + [ALPHABET[idx]]) == CodeBits(s) + Low(idx, 5)
  {
    AlphabetSymbol(idx);
    CodeOfSymbol(idx);
    CodeBitsAppend(s, ALPHABET[idx]);
  }

  lemma {:induction false} LengthOfBits(s: string)
    requires OverAlphabet(s)
    ensures |CodeBits(s)| == 5 * |s|
  {
    if s != "" {
      var n :| 0 <= n < 32 && s[0] == Symbol(n);
      CodeOfSymbol(n);
      LengthOfBits(s[1..]);
    }
  }

  /** The symbol for the five bits above the window moves them into the text. */
  lemma TakeSymbol(s: string, buffer: nat, bits: nat)
    requires OverAlphabet(s)
    ensures var idx := And(Shr(buffer, bits), 0x1f);
            idx < 32 && OverAlphabet(s + [ALPHABET[idx]])
            && CodeBits(s + [ALPHABET[idx]]) + Low(buffer, bits) == CodeBits(s) + Low(buffer, bits + 5)
  {
    assert Pow2(5) == 32;
    var idx := And(Shr(buffer, bits), 0x1f);
    TakeBits(buffer, bits, 5);
    AppendSymbol(s, idx);
    Assoc(CodeBits(s), Low(idx, 5), Low(buffer, bits));
  }

  lemma Assoc(a: Bits, b: Bits, c: Bits)
    ensures (a + b) + c == a + (b + c)
  {
  }

  lemma LastSymbol(s: string, buffer: nat, bits: nat, all: Bits)
    requires OverAlphabet(s) && 0 < bits < 5 && CodeBits(s) + Low(buffer, bits) == all
    ensures var idx := And(Shl(buffer, 5 - bits, WIDTH), 0x1f);
            idx < 32 && s + [ALPHABET[idx]] == Symbols(all)
  {
    assert Pow2(5) == 32;
    var idx := And(Shl(buffer, 5 - bits, WIDTH), 0x1f);
    FillBits(buffer, bits, 5 - bits, WIDTH);
    AppendSymbol(s, idx);
    Assoc(CodeBits(s), Low(buffer, bits), Zeros(5 - bits));
    LengthOfBits(s);
    SymbolsUnique(s + [ALPHABET[idx]], all, 5 - bits);
  }

  /** The inner loop: while there are five bits, the next symbol. */
  method TakeSymbols(text: string, buffer: nat, count: nat, ghost all: Bits) returns (result: string, bits: nat)
    requires OverAlphabet(text) && CodeBits(text) + Low(buffer, count) == all
    ensures bits < 5 && OverAlphabet(result) && CodeBits(result) + Low(buffer, bits) == all
  {
    result, bits := text, count;
    while bits >= 5
      invariant OverAlphabet(result) && CodeBits(result) + Low(buffer, bits) == all
    {
      bits := bits - 5;
      TakeSymbol(result, buffer, bits);
      var idx := And(Shr(buffer, bits), 0x1f);
      result := result + [ALPHABET[idx]];
    }
  }

  /** Shifting a byte in extends the window. */
  lemma PushByte(text: string, data: seq<Byte>, b: Byte, buffer: nat, bits: nat)
    requires bits < 5 && CodeBits(text) + Low(buffer, bits) == BytesBits(data)
    ensures CodeBits(text) + Low(Or(Shl(buffer, 8, WIDTH), b), bits + 8) == BytesBits(data + [b])
  {
    assert Pow2(8) == 256;
    PushBits(buffer, b, bits, 8, WIDTH);
    Assoc(CodeBits(text), Low(buffer, bits), Low(b, 8));
    BytesBitsAppend(data, b);
  }

  /** What is left in the window becomes the last symbol, filled up with zeros. */
  method Finish(text: string, buffer: nat, bits: nat, ghost all: Bits) returns (result: string)
    requires bits < 5 && OverAlphabet(text) && CodeBits(text) + Low(buffer, bits) == all
    ensures result == Symbols(all)
  {
    result := text;
    if bits > 0 {
      LastSymbol(text, buffer, bits, all);
      var idx := And(Shl(buffer, 5 - bits, WIDTH), 0x1f);
      result := result + [ALPHABET[idx]];
    } else {
      LengthOfBits(text);
      assert CodeBits(text) + [] == CodeBits(text) && all + Zeros(0) == all;
      SymbolsUnique(text, all, 0);
    }
  }

  method Encode(data: seq<Byte>) returns (result: string)
    ensures result == Encoded(data)
  {
    result := "";
    var buffer, bits := 0, 0;
    for i := 0 to |data|
      invariant bits < 5 && OverAlphabet(result)
      invariant CodeBits(result) + Low(buffer, bits) == BytesBits(data[..i])
    {
      PushByte(result, data[..i], data[i], buffer, bits);
      assert data[..i + 1] == data[..i] + [data[i]];
      buffer := Or(Shl(buffer, 8, WIDTH), data[i]);
      result, bits := TakeSymbols(result, buffer, bits + 8, BytesBits(data[..i + 1]));
    }
    assert data[..|data|] == data;
    result := Finish(result, buffer, bits, BytesBits(data));
  }

  /** A complete byte moves from the window into the result. */
  lemma TakeByte(result: seq<Byte>, buffer: nat, bits: nat)
    ensures var b := Shr(buffer, bits) % 256;
            BytesBits(result + [b]) + Low(buffer, bits) == BytesBits(result) + Low(buffer, bits + 8)
  {
    assert Pow2(8) == 256;
    var b := Shr(buffer, bits) % 256;
    AndMask(Shr(buffer, bits), 8);
    TakeBits(buffer, bits, 8);
    BytesBitsAppend(result, b);
    Assoc(BytesBits(result), Low(b, 8), Low(buffer, bits));
  }

  /** Shifting a symbol's five bits in extends the window. */
  lemma PushSymbol(s: string, c: char, result: seq<Byte>, buffer: nat, bits: nat)
    requires Code(c).Some? && bits < 8
    requires BytesBits(result) + Low(buffer, bits) == CodeBits(s)
    ensures BytesBits(result) + Low(Or(Shl(buffer, 5, WIDTH), Code(c).value), bits + 5) == CodeBits(s + [c])
  {
    assert Pow2(5) == 32;
    CodeBitsAppend(s, c);
    PushBits(buffer, Code(c).value, bits, 5, WIDTH);
    Assoc(BytesBits(result), Low(buffer, bits), Low(Code(c).value, 5));
  }

  lemma SkipSymbol(s: string, c: char)
    requires Code(c).None?
    ensures CodeBits(s + [c]) == CodeBits(s)
  {
    CodeBitsAppend(s, c);
  }

  /** One symbol in, and a byte out when there are eight bits. */
  method TakeIn(s: seq<Byte>, window: nat, count: nat, val: nat, ghost text: string, ghost c: char)
    returns (result: seq<Byte>, buffer: nat, bits: nat)
    requires Code(c) == Some(val) && count < 8 && BytesBits(s) + Low(window, count) == CodeBits(text)
    ensures bits < 8 && BytesBits(result) + Low(buffer, bits) == CodeBits(text + [c])
  {
    PushSymbol(text, c, s, window, count);
    result, buffer, bits := s, Or(Shl(window, 5, WIDTH), val), count + 5;
    if bits >= 8 {
      bits := bits - 8;
      TakeByte(result, buffer, bits);
      result := result + [Shr(buffer, bits) % 256];
    }
  }

  method Decode(encoded: string) returns (r: Option<seq<Byte>>)
    ensures r == Decoded(encoded)
  {
    var result: seq<Byte>, buffer, bits := [], 0, 0;
    for i := 0 to |encoded|
      invariant bits < 8 && Readable(encoded[..i])
      invariant BytesBits(result) + Low(buffer, bits) == CodeBits(encoded[..i])
    {
      var c := encoded[i];
      assert encoded[..i + 1] == encoded[..i] + [c];
      match Code(c) {
        case Some(val) => result, buffer, bits := TakeIn(result, buffer, bits, val, encoded[..i], c);
        case None =>
          SkipSymbol(encoded[..i], c);
          if !Skipped(c) {
            return None;
          }
      }
    }
    assert encoded[..|encoded|] == encoded;
    BytesOfBits(result, Low(buffer, bits));
    r := Some(result);
  }
}
