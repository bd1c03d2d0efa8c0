/** Unpadded base64url (section 5 of RFC 4648) as Go's `base64.RawURLEncoding` reads and
    writes it, and the canonical decoder that the cursor codec builds on top of it. */
module Base64Url {

  type Byte = b: int | 0 <= b < 256

  datatype Decoded = Corrupt | Bytes(bytes: seq<Byte>)

  function Symbol(v: nat): char
    requires v < 64
  {
    if v < 26 then ('A' as int + v) as char
    else if v < 52 then ('a' as int + v - 26) as char
    else if v < 62 then ('0' as int + v - 52) as char
    else if v == 62 then '-' else '_'
  }

  /** Six bit value of a symbol; 64 for a character outside the alphabet. */
  function Value(c: char): (v: nat)
    ensures v <= 64
    ensures v < 64 ==> Symbol(v) == c
  {
    if 'A' <= c <= 'Z' then c as int - 'A' as int
    else if 'a' <= c <= 'z' then c as int - 'a' as int + 26
    else if '0' <= c <= '9' then c as int - '0' as int + 52
    else if c == '-' then 62
    else if c == '_' then 63
    else 64
  }

  lemma ValueOfSymbol(v: nat)
    requires v < 64
    ensures Value(Symbol(v)) == v
    ensures Symbol(v) != '.' && Symbol(v) != '\r' && Symbol(v) != '\n'
  {
  }

  type Sextet = v: int | 0 <= v < 64

  /** The two groups of a last byte, and the three of the last two. */
  function Lone(x: Byte): (Sextet, Sextet) {
    (x / 4, x % 4 * 16)
  }

  function Duo(x: Byte, y: Byte): (Sextet, Sextet, Sextet) {
    (x / 4, x % 4 * 16 + y / 16, y % 16 * 4)
  }

  /** The bytes regrouped six bits at a time, zero bits filling the last group. */
  function Sextets(b: seq<Byte>): seq<Sextet> {
    if |b| == 0 then []
    else if |b| == 1 then [Lone(b[0]).0, Lone(b[0]).1]
    else if |b| == 2 then [Duo(b[0], b[1]).0, Duo(b[0], b[1]).1, Duo(b[0], b[1]).2]
    else Quad(b[0], b[1], b[2]) + Sextets(b[3..])
  }

  function Quad(x: Byte, y: Byte, z: Byte): (q: seq<Sextet>)
    ensures |q| == 4
  {
    [x / 4, x % 4 * 16 + y / 16, y % 16 * 4 + z / 64, z % 64]
  }

  function First(v0: int, v1: int): int { v0 * 4 + v1 / 16 }
  function Second(v1: int, v2: int): int { v1 % 16 * 16 + v2 / 4 }
  function Third(v2: int, v3: int): int { v2 % 4 * 64 + v3 }

  /** The inverse regrouping; left over bits must be zero in strict mode. */
  function Pack(v: seq<Sextet>): Decoded {
    if |v| == 0 then Bytes([])
    else if |v| == 1 then Corrupt
    else if |v| == 2 then
      if v[1] % 16 != 0 then Corrupt else Bytes([First(v[0], v[1])])
    else if |v| == 3 then
      if v[2] % 4 != 0 then Corrupt else Bytes([First(v[0], v[1]), Second(v[1], v[2])])
    else
      match Pack(v[4..])
      case Corrupt => Corrupt
      case Bytes(rest) => Bytes([First(v[0], v[1]), Second(v[1], v[2]), Third(v[2], v[3])] + rest)
  }

  function Encode(b: seq<Byte>): string {
    Symbols(Sextets(b))
  }

  function Symbols(v: seq<Sextet>): (s: string)
    ensures |s| == |v|
  {
    seq(|v|, i requires 0 <= i < |v| => Symbol(v[i]))
  }

  function Values(s: string): (v: seq<Sextet>)
    requires InAlphabet(s)
    ensures |v| == |s|
  {
    seq(|s|, i requires 0 <= i < |s| => Value(s[i]))
  }

  /** Go's decoder skips carriage returns and line feeds, in strict mode too. */
  function WithoutNewlines(s: string): (r: string)
    ensures '\r' !in r && '\n' !in r
    ensures '\r' !in s && '\n' !in s ==> r == s
    ensures |r| == |s| ==> '\r' !in s && '\n' !in s
    ensures |r| <= |s|
  {
    if s == [] then []
    else
      var rest := WithoutNewlines(s[1..]);
      assert s == [s[0]] + s[1..];
      if s[0] == '\r' || s[0] == '\n' then rest else [s[0]] + rest
  }

  predicate InAlphabet(s: string) {
    forall i :: 0 <= i < |s| ==> Value(s[i]) < 64
  }

  /** `RawURLEncoding.Strict()` on a newline free string. */
  function DecodeClean(s: string): Decoded {
    if InAlphabet(s) then Pack(Values(s)) else Corrupt
  }

  /** `RawURLEncoding.Strict().DecodeString`. */
  function DecodeStrict(s: string): Decoded {
    DecodeClean(WithoutNewlines(s))
  }

  /** Number of bytes the lenient `RawURLEncoding.DecodeString` yields, or -1 when it fails. */
  function LenientLength(s: string): (n: int)
    ensures n >= -1
  {
    var clean := WithoutNewlines(s);
    if InAlphabet(clean) && |clean| % 4 != 1 then |clean| * 3 / 4 else -1
  }

  /** `decodeCanonicalBase64`: strict decoding followed by a comparison with re-encoding. */
  function DecodeCanonical(s: string): Decoded {
    match DecodeStrict(s)
    case Corrupt => Corrupt
    case Bytes(b) => if Encode(b) != s then Corrupt else Bytes(b)
  }

  lemma EncodedAlphabet(b: seq<Byte>)
    ensures InAlphabet(Encode(b))
    ensures '.' !in Encode(b) && '\r' !in Encode(b) && '\n' !in Encode(b)
    ensures Values(Encode(b)) == Sextets(b)
  {
    forall v: nat | v < 64 ensures Value(Symbol(v)) == v {
      ValueOfSymbol(v);
    }
  }

  lemma TripleRoundTrip(x: Byte, y: Byte, z: Byte)
    ensures var q := Quad(x, y, z); First(q[0], q[1]) == x && Second(q[1], q[2]) == y && Third(q[2], q[3]) == z
  {
  }

  lemma PairBits(a: Sextet, b: Sextet, c: Sextet)
    ensures First(a, b) / 4 == a && First(a, b) % 4 * 16 + Second(b, c) / 16 == b
  {
  }

  lemma TailBits(b: Sextet, c: Sextet, d: Sextet)
    ensures Second(b, c) % 16 * 4 + Third(c, d) / 64 == c && Third(c, d) % 64 == d
  {
  }

  lemma QuadRoundTrip(v: seq<Sextet>)
    requires |v| == 4
    ensures Quad(First(v[0], v[1]), Second(v[1], v[2]), Third(v[2], v[3])) == v
  {
    PairBits(v[0], v[1], v[2]);
    TailBits(v[1], v[2], v[3]);
  }

  lemma PackFour(q: seq<Sextet>, rest: seq<Sextet>, x: Byte, y: Byte, z: Byte)
    requires |q| == 4 && First(q[0], q[1]) == x && Second(q[1], q[2]) == y && Third(q[2], q[3]) == z
    requires Pack(rest).Bytes?
    ensures Pack(q + rest) == Bytes([x, y, z] + Pack(rest).bytes)
  {
    assert (q + rest)[4..] == rest;
  }

  lemma LoneBits(x: Byte)
    ensures First(Lone(x).0, Lone(x).1) == x && Lone(x).1 % 16 == 0
  {
    assert x % 4 == 0 || x % 4 == 1 || x % 4 == 2 || x % 4 == 3;
  }

  lemma PackPair(v: seq<Sextet>, x: Byte)
    requires |v| == 2 && First(v[0], v[1]) == x && v[1] % 16 == 0
    ensures Pack(v) == Bytes([x])
  {
  }

  lemma PackOneByte(b: seq<Byte>)
    requires |b| == 1
    ensures Pack(Sextets(b)) == Bytes(b)
  {
    LoneBits(b[0]);
    PackPair(Sextets(b), b[0]);
  }

  lemma DuoBits(x: Byte, y: Byte)
    ensures First(Duo(x, y).0, Duo(x, y).1) == x && Second(Duo(x, y).1, Duo(x, y).2) == y && Duo(x, y).2 % 4 == 0
  {
    assert x % 4 == 0 || x % 4 == 1 || x % 4 == 2 || x % 4 == 3;
  }

  lemma PackTrio(v: seq<Sextet>, x: Byte, y: Byte)
    requires |v| == 3 && First(v[0], v[1]) == x && Second(v[1], v[2]) == y && v[2] % 4 == 0
    ensures Pack(v) == Bytes([x, y])
  {
  }

  lemma PackTwoBytes(b: seq<Byte>)
    requires |b| == 2
    ensures Pack(Sextets(b)) == Bytes(b)
  {
    DuoBits(b[0], b[1]);
    PackTrio(Sextets(b), b[0], b[1]);
  }

  lemma {:induction false} PackSextets(b: seq<Byte>)
    ensures Pack(Sextets(b)) == Bytes(b)
  {
    if |b| == 1 {
      PackOneByte(b);
    } else if |b| == 2 {
      PackTwoBytes(b);
    } else if |b| >= 3 {
      PackSextets(b[3..]);
      TripleRoundTrip(b[0], b[1], b[2]);
      PackFour(Quad(b[0], b[1], b[2]), Sextets(b[3..]), b[0], b[1], b[2]);
      assert b == [b[0], b[1], b[2]] + b[3..];
    }
  }

  /** Four symbols for three bytes, and as few as are needed for the rest. */
  lemma {:induction false} EncodedLength(b: seq<Byte>)
    ensures |Encode(b)| == (4 * |b| + 2) / 3
  {
    SextetsLength(b);
  }

  lemma {:induction false} SextetsLength(b: seq<Byte>)
    ensures |Sextets(b)| == (4 * |b| + 2) / 3
  {
    if |b| >= 3 {
      SextetsLength(b[3..]);
    }
  }

  lemma UnpackThree(t: seq<Byte>, rest: seq<Byte>)
    requires |t| == 3
    ensures Sextets(t + rest) == Quad(t[0], t[1], t[2]) + Sextets(rest)
  {
    assert (t + rest)[3..] == rest;
  }

  lemma ShortTails(v0: Sextet, v1: Sextet, v2: Sextet)
    ensures v1 % 16 == 0 ==> Sextets([First(v0, v1)]) == [v0, v1]
    ensures v2 % 4 == 0 ==> Sextets([First(v0, v1), Second(v1, v2)]) == [v0, v1, v2]
  {
    QuadRoundTrip([v0, v1, v2, 0]);
    QuadRoundTrip([v0, v1, 0, 0]);
  }

  lemma {:induction false} SextetsPack(v: seq<Sextet>)
    requires Pack(v).Bytes?
    ensures Sextets(Pack(v).bytes) == v
  {
    if |v| == 2 {
      ShortTails(v[0], v[1], 0);
    } else if |v| == 3 {
      ShortTails(v[0], v[1], v[2]);
    } else if |v| >= 4 {
      SextetsPack(v[4..]);
      UnpackThree([First(v[0], v[1]), Second(v[1], v[2]), Third(v[2], v[3])], Pack(v[4..]).bytes);
      QuadRoundTrip(v[..4]);
      assert v == v[..4] + v[4..];
    }
  }

  /** Decoding undoes encoding. */
  lemma DecodeEncode(b: seq<Byte>)
    ensures DecodeClean(Encode(b)) == Bytes(b)
  {
    EncodedAlphabet(b);
    PackSextets(b);
  }

  /** Strict decoding accepts nothing but encodings, once newlines are gone. */
  lemma EncodeDecode(s: string)
    requires DecodeClean(s).Bytes?
    ensures Encode(DecodeClean(s).bytes) == s
  {
    SextetsPack(Values(s));
  }

  /** The canonical decoder accepts exactly the encoder's outputs, each as its own preimage. */
  lemma CanonicalExactly(s: string, b: seq<Byte>)
    ensures DecodeCanonical(s) == Bytes(b) <==> s == Encode(b)
  {
    DecodeEncode(b);
    EncodedAlphabet(b);
  }

  /** What the re-encoding step adds to strict mode: it rejects exactly the strings with
      embedded line breaks, which strict decoding alone would take for another token's bytes. */
  lemma ReencodingRejectsNewlines(s: string)
    requires DecodeStrict(s).Bytes?
    ensures DecodeCanonical(s).Corrupt? <==> '\r' in s || '\n' in s
  {
    EncodeDecode(WithoutNewlines(s));
  }

  /** The alphabet of RFC 4648, section 5: upper case, lower case, digits, hyphen, underscore. */
  lemma AlphabetIsUrlSafe(v: nat)
    requires v < 64
    ensures Symbol(0) == 'A' && Symbol(26) == 'a' && Symbol(52) == '0' && Symbol(62) == '-' && Symbol(63) == '_'
    ensures v !in {0, 26, 52, 62, 63} ==> Symbol(v) as int == Symbol(v - 1) as int + 1
  {
  }

  /** Three bytes and their four symbols spell the same number, most significant first. */
  lemma QuadIsBigEndian(x: Byte, y: Byte, z: Byte)
    ensures var q := Quad(x, y, z);
      262144 * (q[0] as int) + 4096 * (q[1] as int) + 64 * (q[2] as int) + (q[3] as int) == 65536 * x + 256 * y + z
  {
  }
}
