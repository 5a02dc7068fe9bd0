/** Unpadded standard base64 as Go's RawStdEncoding writes and reads it (section 4 with section 3.2 of RFC 4648). */
module Base64 {
  import opened Wrappers

  type Byte = b: int | 0 <= b < 256
  type Sextet = v: int | 0 <= v < 64

  function Symbol(v: Sextet): char {
    if v < 26 then 'A' + v as char
    else if v < 52 then 'a' + (v - 26) as char
    else if v < 62 then '0' + (v - 52) as char
    else if v == 62 then '+' else '/'
  }

  predicate InAlphabet(c: char) {
    'A' <= c <= 'Z' || 'a' <= c <= 'z' || '0' <= c <= '9' || c == '+' || c == '/'
  }

  function SymbolValue(c: char): Sextet
    requires InAlphabet(c)
  {
    if 'A' <= c <= 'Z' then (c - 'A') as int
    else if 'a' <= c <= 'z' then (c - 'a') as int + 26
    else if '0' <= c <= '9' then (c - '0') as int + 52
    else if c == '+' then 62 else 63
  }

  lemma SymbolInverse(v: Sextet)
    ensures InAlphabet(Symbol(v)) && SymbolValue(Symbol(v)) == v
  {
  }

  function Encode(bs: seq<Byte>): string {
    if bs == [] then ""
    else if |bs| == 1 then [Symbol(bs[0] / 4), Symbol(bs[0] % 4 * 16)]
    else if |bs| == 2 then [Symbol(bs[0] / 4), Symbol(bs[0] % 4 * 16 + bs[1] / 16), Symbol(bs[1] % 16 * 4)]
    else
      [Symbol(bs[0] / 4), Symbol(bs[0] % 4 * 16 + bs[1] / 16), Symbol(bs[1] % 16 * 4 + bs[2] / 64), Symbol(bs[2] % 64)]
      + Encode(bs[3..])
  }

  /** Line breaks are skipped wherever they stand. */
  function SkipBreaks(s: string): string {
    if s == "" then ""
    else if IsBreak(s[0]) then SkipBreaks(s[1..])
    else [s[0]] + SkipBreaks(s[1..])
  }

  /** A lone last symbol is malformed; the spare bits of a short last group are not looked at. */
  function DecodeGroups(s: string): Option<seq<Byte>> {
    if s == "" then Some([])
    else if |s| == 1 || exists i :: 0 <= i < |s| && i < 4 && !InAlphabet(s[i]) then None
    else
      var a, b := SymbolValue(s[0]), SymbolValue(s[1]);
      if |s| == 2 then Some([a * 4 + b / 16])
      else
        var c := SymbolValue(s[2]);
        if |s| == 3 then Some([a * 4 + b / 16, b % 16 * 16 + c / 4])
        else
          match DecodeGroups(s[4..])
          case None => None
          case Some(rest) => Some([a * 4 + b / 16, b % 16 * 16 + c / 4, c % 4 * 64 + SymbolValue(s[3])] + rest)
  }

  function Decode(s: string): Option<seq<Byte>> {
    DecodeGroups(SkipBreaks(s))
  }

  // ---- round trip ----

  predicate Symbols(s: string) { forall i :: 0 <= i < |s| ==> InAlphabet(s[i]) }

  lemma {:induction false} EncodeSymbols(bs: seq<Byte>)
    ensures Symbols(Encode(bs)) && (bs != [] ==> Encode(bs) != "")
  {
    if |bs| >= 3 { EncodeSymbols(bs[3..]); }
  }

  lemma {:induction false} NoBreaks(s: string)
    requires Symbols(s)
    ensures SkipBreaks(s) == s
  {
    if s != "" {
      NoBreaks(s[1..]);
      assert s == [s[0]] + s[1..];
    }
  }

  lemma Repack(b0: Byte, b1: Byte, b2: Byte)
    ensures b0 / 4 * 4 + (b0 % 4 * 16 + b1 / 16) / 16 == b0 && b0 / 4 * 4 + (b0 % 4 * 16) / 16 == b0
    ensures (b0 % 4 * 16 + b1 / 16) % 16 * 16 + (b1 % 16 * 4 + b2 / 64) / 4 == b1
    ensures (b0 % 4 * 16 + b1 / 16) % 16 * 16 + (b1 % 16 * 4) / 4 == b1
    ensures (b1 % 16 * 4 + b2 / 64) % 4 * 64 + b2 % 64 == b2
  {
  }

  lemma OneByte(b0: Byte)
    ensures DecodeGroups([Symbol(b0 / 4), Symbol(b0 % 4 * 16)]) == Some([b0])
  {
    SymbolInverse(b0 / 4);
    SymbolInverse(b0 % 4 * 16);
  }

  lemma TwoBytes(b0: Byte, b1: Byte)
    ensures DecodeGroups([Symbol(b0 / 4), Symbol(b0 % 4 * 16 + b1 / 16), Symbol(b1 % 16 * 4)]) == Some([b0, b1])
  {
    SymbolInverse(b0 / 4);
    SymbolInverse(b0 % 4 * 16 + b1 / 16);
    SymbolInverse(b1 % 16 * 4);
    Repack(b0, b1, 0);
  }

  lemma ThreeBytes(b0: Byte, b1: Byte, b2: Byte, rest: string, bs: seq<Byte>)
    requires DecodeGroups(rest) == Some(bs)
    ensures var group := [Symbol(b0 / 4), Symbol(b0 % 4 * 16 + b1 / 16), Symbol(b1 % 16 * 4 + b2 / 64), Symbol(b2 % 64)];
            DecodeGroups(group + rest) == Some([b0, b1, b2] + bs)
  {
    var group := [Symbol(b0 / 4), Symbol(b0 % 4 * 16 + b1 / 16), Symbol(b1 % 16 * 4 + b2 / 64), Symbol(b2 % 64)];
    SymbolInverse(b0 / 4);
    SymbolInverse(b0 % 4 * 16 + b1 / 16);
    SymbolInverse(b1 % 16 * 4 + b2 / 64);
    SymbolInverse(b2 % 64);
    Repack(b0, b1, b2);
    assert (group + rest)[4..] == rest;
  }

  lemma {:induction false} GroupsRoundTrip(bs: seq<Byte>)
    ensures DecodeGroups(Encode(bs)) == Some(bs)
  {
    if |bs| == 1 {
      OneByte(bs[0]);
      assert bs == [bs[0]];
    } else if |bs| == 2 {
      TwoBytes(bs[0], bs[1]);
      assert bs == [bs[0], bs[1]];
    } else if |bs| >= 3 {
      GroupsRoundTrip(bs[3..]);
      ThreeBytes(bs[0], bs[1], bs[2], Encode(bs[3..]), bs[3..]);
      assert bs == [bs[0], bs[1], bs[2]] + bs[3..];
    }
  }

  /** Whatever the bytes and however many, decoding their encoding gives them back. */
  lemma RoundTrip(bs: seq<Byte>)
    ensures Decode(Encode(bs)) == Some(bs)
  {
    EncodeSymbols(bs);
    NoBreaks(Encode(bs));
    GroupsRoundTrip(bs);
  }

  lemma {:induction false} GroupsDecodeExactly(s: string)
    ensures DecodeGroups(s).Some? <==> Symbols(s) && |s| % 4 != 1
  {
    if |s| >= 4 {
      GroupsDecodeExactly(s[4..]);
      assert s == s[..4] + s[4..];
    }
  }

  predicate IsBreak(c: char) { c == '\r' || c == '\n' }

  /** How many characters are no line breaks. */
  function Length(s: string): nat {
    if s == "" then 0 else Length(s[1..]) + if IsBreak(s[0]) then 0 else 1
  }

  lemma {:induction false} SkipsBreaks(s: string)
    ensures |SkipBreaks(s)| == Length(s)
    ensures Symbols(SkipBreaks(s)) <==> forall i :: 0 <= i < |s| ==> InAlphabet(s[i]) || IsBreak(s[i])
  {
    if s != "" {
      SkipsBreaks(s[1..]);
      var rest := SkipBreaks(s[1..]);
      assert s == [s[0]] + s[1..];
      assert Symbols([s[0]] + rest) <==> InAlphabet(s[0]) && Symbols(rest) by {
        assert ([s[0]] + rest)[0] == s[0] && ([s[0]] + rest)[1..] == rest;
      }
    }
  }

  /** A text decodes exactly when it holds nothing but symbols and line breaks and does not leave a lone symbol over. */
  lemma DecodesExactly(s: string)
    ensures Decode(s).Some? <==> (forall i :: 0 <= i < |s| ==> InAlphabet(s[i]) || IsBreak(s[i])) && Length(s) % 4 != 1
  {
    SkipsBreaks(s);
    GroupsDecodeExactly(SkipBreaks(s));
  }

  // ---- what is decoded ----

  /** The alphabet of table 1 of RFC 4648, by its code points. */
  lemma SymbolTable(v: Sextet, c: char)
    ensures Symbol(v) as int == if v <= 25 then 65 + v else if v <= 51 then 71 + v else if v <= 61 then v - 4 else if v == 62 then 43 else 47
    ensures InAlphabet(c) <==> exists w: Sextet :: Symbol(w) == c
  {
    if InAlphabet(c) { ValueInverse(c); }
  }

  lemma ValueInverse(c: char)
    requires InAlphabet(c)
    ensures Symbol(SymbolValue(c)) == c
  {
  }

  /** The text with the spare bits of a short last group cleared. */
  function Trimmed(s: string): string
    requires Symbols(s)
  {
    var n := |s|;
    if n % 4 == 2 then s[..n - 1] + [Symbol(SymbolValue(s[n - 1]) / 16 * 16)]
    else if n % 4 == 3 then s[..n - 1] + [Symbol(SymbolValue(s[n - 1]) / 4 * 4)]
    else s
  }

  /** The three bytes of four sextets. */
  function Three(a: Sextet, b: Sextet, c: Sextet, d: Sextet): (bs: seq<Byte>)
    ensures |bs| == 3
  {
    [a * 4 + b / 16, b % 16 * 16 + c / 4, c % 4 * 64 + d]
  }

  lemma SextetsOfThree(a: Sextet, b: Sextet, c: Sextet, d: Sextet)
    ensures var bs := Three(a, b, c, d);
            bs[0] / 4 == a && bs[0] % 4 * 16 + bs[1] / 16 == b && bs[1] % 16 * 4 + bs[2] / 64 == c && bs[2] % 64 == d
    ensures var bs := Three(a, b, c, d); bs[0] % 4 * 16 == b / 16 * 16 && bs[1] % 16 * 4 == c / 4 * 4
  {
  }

  lemma DecodeFour(s: string, rest: seq<Byte>)
    requires |s| >= 4 && DecodeGroups(s[4..]) == Some(rest) && forall i :: 0 <= i < 4 ==> InAlphabet(s[i])
    ensures DecodeGroups(s) == Some(Three(SymbolValue(s[0]), SymbolValue(s[1]), SymbolValue(s[2]), SymbolValue(s[3])) + rest)
  {
  }

  lemma EncodeThree(bs: seq<Byte>, rest: seq<Byte>)
    requires |bs| == 3
    ensures Encode(bs + rest)
            == [Symbol(bs[0] / 4), Symbol(bs[0] % 4 * 16 + bs[1] / 16), Symbol(bs[1] % 16 * 4 + bs[2] / 64), Symbol(bs[2] % 64)] + Encode(rest)
  {
    assert (bs + rest)[3..] == rest;
  }

  lemma GroupReencodes(s: string, rest: seq<Byte>)
    requires |s| >= 4 && DecodeGroups(s[4..]) == Some(rest) && forall i :: 0 <= i < 4 ==> InAlphabet(s[i])
    ensures DecodeGroups(s).Some? && Encode(DecodeGroups(s).value) == s[..4] + Encode(rest)
  {
    var a, b, c, d := SymbolValue(s[0]), SymbolValue(s[1]), SymbolValue(s[2]), SymbolValue(s[3]);
    DecodeFour(s, rest);
    EncodeThree(Three(a, b, c, d), rest);
    SextetsOfThree(a, b, c, d);
    ValueInverse(s[0]);
    ValueInverse(s[1]);
    ValueInverse(s[2]);
    ValueInverse(s[3]);
    assert s[..4] == [s[0], s[1], s[2], s[3]];
  }

  predicate Reencodes(s: string)
    requires Symbols(s)
  {
    DecodeGroups(s).Some? && Encode(DecodeGroups(s).value) == Trimmed(s)
  }

  lemma TwoReencode(s: string)
    requires Symbols(s) && |s| == 2
    ensures Reencodes(s)
  {
    var bs := Three(SymbolValue(s[0]), SymbolValue(s[1]), 0, 0);
    SextetsOfThree(SymbolValue(s[0]), SymbolValue(s[1]), 0, 0);
    ValueInverse(s[0]);
    assert DecodeGroups(s) == Some([bs[0]]) && s[..1] == [s[0]];
  }

  lemma ThreeReencode(s: string)
    requires Symbols(s) && |s| == 3
    ensures Reencodes(s)
  {
    var bs := Three(SymbolValue(s[0]), SymbolValue(s[1]), SymbolValue(s[2]), 0);
    SextetsOfThree(SymbolValue(s[0]), SymbolValue(s[1]), SymbolValue(s[2]), 0);
    ValueInverse(s[0]);
    ValueInverse(s[1]);
    assert DecodeGroups(s) == Some([bs[0], bs[1]]) && s[..2] == [s[0], s[1]];
  }

  lemma TrimmedOn(s: string)
    requires Symbols(s) && |s| >= 4
    ensures Symbols(s[4..]) && Trimmed(s) == s[..4] + Trimmed(s[4..])
  {
    var rest := s[4..];
    assert s == s[..4] + rest;
    if rest != "" {
      assert s[..|s| - 1] == s[..4] + rest[..|rest| - 1] && s[|s| - 1] == rest[|rest| - 1];
    }
  }

  lemma FourReencode(s: string)
    requires Symbols(s) && |s| >= 4 && Reencodes(s[4..])
    ensures Reencodes(s)
  {
    TrimmedOn(s);
    GroupReencodes(s, DecodeGroups(s[4..]).value);
  }

  lemma {:induction false} GroupsReencode(s: string)
    requires Symbols(s) && |s| % 4 != 1
    ensures Reencodes(s)
  {
    if |s| == 2 {
      TwoReencode(s);
    } else if |s| == 3 {
      ThreeReencode(s);
    } else if |s| >= 4 {
      GroupsReencode(s[4..]);
      FourReencode(s);
    }
  }

  /** What a text decodes to is what encodes to it, line breaks aside and with the spare bits of its last symbol cleared. */
  lemma DecodeReencodes(s: string)
    requires Decode(s).Some?
    ensures Symbols(SkipBreaks(s)) && Encode(Decode(s).value) == Trimmed(SkipBreaks(s))
  {
    GroupsDecodeExactly(SkipBreaks(s));
    GroupsReencode(SkipBreaks(s));
  }
}
