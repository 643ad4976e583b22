/** Unpadded base64 with the URL- and filename-safe alphabet (section 5 of
    RFC 4648, padding omitted as section 3.2 allows): Go's
    `base64.RawURLEncoding`, used to name uploaded thumbnails. */
module Base64Url {
  import opened Results

  type Byte = b: int | 0 <= b < 256

  /** Six-bit values. */
  type Sextet = v: int | 0 <= v < 64

  /** The URL-safe alphabet: letters, digits, then '-' and '_'. */
  function Symbol(v: Sextet): (c: char)
  {
    if v < 26 then ('A' as int + v) as char
    else if v < 52 then ('a' as int + (v - 26)) as char
    else if v < 62 then ('0' as int + (v - 52)) as char
    else if v == 62 then '-'
    else '_'
  }

  predicate IsSymbol(c: char)
  {
    ('A' <= c <= 'Z') || ('a' <= c <= 'z') || ('0' <= c <= '9') || c == '-' || c == '_'
  }

  /** The value a symbol stands for; the inverse of `Symbol`. */
  function ValueOf(c: char): (v: Sextet)
    requires IsSymbol(c)
    ensures Symbol(v) == c
  {
    if 'A' <= c <= 'Z' then c as int - 'A' as int
    else if 'a' <= c <= 'z' then c as int - 'a' as int + 26
    else if '0' <= c <= '9' then c as int - '0' as int + 52
    else if c == '-' then 62
    else 63
  }

  lemma SymbolInAlphabet(v: Sextet)
    ensures IsSymbol(Symbol(v))
    ensures ValueOf(Symbol(v)) == v
  {
  }

  /** Length of the unpadded encoding of `n` bytes: four symbols per
      three bytes, and one more symbol than bytes in a short last group. */
  function EncodedLength(n: nat): nat
  {
    4 * (n / 3) + (if n % 3 == 0 then 0 else n % 3 + 1)
  }

  /** The bit arithmetic of a group: three bytes cut into four sextets
      and glued back. When the last bytes of a short group are zero, the
      sextet that holds their bits has zero low bits. */
  lemma GroupArithmetic(b0: Byte, b1: Byte, b2: Byte)
    ensures 0 <= (b0 % 4) * 16 + b1 / 16 < 64
    ensures 0 <= (b1 % 16) * 4 + b2 / 64 < 64
    ensures (b0 / 4) * 4 + ((b0 % 4) * 16 + b1 / 16) / 16 == b0
    ensures (((b0 % 4) * 16 + b1 / 16) % 16) * 16 + ((b1 % 16) * 4 + b2 / 64) / 4 == b1
    ensures (((b1 % 16) * 4 + b2 / 64) % 4) * 64 + b2 % 64 == b2
    ensures b1 == 0 ==> ((b0 % 4) * 16 + b1 / 16) % 16 == 0
    ensures b2 == 0 ==> ((b1 % 16) * 4 + b2 / 64) % 4 == 0
  {
    var v1 := (b0 % 4) * 16 + b1 / 16;
    var v2 := (b1 % 16) * 4 + b2 / 64;
    assert v1 / 16 == b0 % 4 && v1 % 16 == b1 / 16;
    assert v2 / 4 == b1 % 16 && v2 % 4 == b2 / 64;
  }

  /** A group of up to three bytes cut into sextets, high bits first; a
      short group is padded with zero bits to a whole sextet. */
  function Sextets(g: seq<Byte>): (v: seq<Sextet>)
    requires 1 <= |g| <= 3
    ensures |v| == |g| + 1
  {
    var b0 := g[0];
    var b1 := if |g| > 1 then g[1] else 0;
    var b2 := if |g| > 2 then g[2] else 0;
    GroupArithmetic(b0, b1, b2);
    [b0 / 4, (b0 % 4) * 16 + b1 / 16, (b1 % 16) * 4 + b2 / 64, b2 % 64][..|g| + 1]
  }

  /** Two to four sextets glued back into bytes, refusing a short group
      whose padding bits are not zero. */
  function Glue(v: seq<Sextet>): (r: Option<seq<Byte>>)
    requires 2 <= |v| <= 4
    ensures r.Some? ==> |r.value| == |v| - 1
  {
    var v2: int := if |v| > 2 then v[2] else 0;
    var v3: int := if |v| > 3 then v[3] else 0;
    var b0: int := (v[0] as int) * 4 + v[1] / 16;
    var b1: int := (v[1] as int % 16) * 16 + v2 / 4;
    var b2: int := (v2 % 4) * 64 + v3;
    if |v| == 2 then (if v[1] % 16 == 0 then Some([b0]) else None)
    else if |v| == 3 then (if v2 % 4 == 0 then Some([b0, b1]) else None)
    else Some([b0, b1, b2])
  }

  /** Gluing the sextets of a group gives the group back. */
  lemma GlueSextets(g: seq<Byte>)
    requires 1 <= |g| <= 3
    ensures Glue(Sextets(g)) == Some(g)
  {
    var b0 := g[0];
    var b1 := if |g| > 1 then g[1] else 0;
    var b2 := if |g| > 2 then g[2] else 0;
    GroupArithmetic(b0, b1, b2);
    if |g| == 1 {
      assert g == [b0];
    } else if |g| == 2 {
      assert g == [b0, b1];
    } else {
      assert g == [b0, b1, b2];
    }
  }

  /** Sextets written as symbols. */
  function Symbols(v: seq<Sextet>): (s: string)
    ensures |s| == |v|
    ensures forall k :: 0 <= k < |s| ==> s[k] == Symbol(v[k]) && IsSymbol(s[k])
  {
    if |v| == 0 then []
    else
      SymbolInAlphabet(v[0]);
      [Symbol(v[0])] + Symbols(v[1..])
  }

  /** Symbols read back as sextets. */
  function Values(s: string): (v: seq<Sextet>)
    requires forall k :: 0 <= k < |s| ==> IsSymbol(s[k])
    ensures |v| == |s|
    ensures forall k :: 0 <= k < |s| ==> v[k] == ValueOf(s[k])
  {
    if |s| == 0 then []
    else [ValueOf(s[0])] + Values(s[1..])
  }

  /** Reading symbols undoes writing them. */
  lemma ValuesOfSymbols(v: seq<Sextet>)
    ensures Values(Symbols(v)) == v
  {
    var s := Symbols(v);
    forall k | 0 <= k < |v|
      ensures Values(s)[k] == v[k]
    {
      SymbolInAlphabet(v[k]);
    }
  }

  /** Encodes a group of up to three bytes. */
  function EncodeGroup(g: seq<Byte>): (s: string)
    requires 1 <= |g| <= 3
    ensures |s| == |g| + 1
    ensures forall k :: 0 <= k < |s| ==> IsSymbol(s[k])
  {
    Symbols(Sextets(g))
  }

  /** Decodes a group of two to four symbols. Like the strict decoder, it
      refuses a short group whose unused low bits are not zero. */
  function DecodeGroup(s: string): (r: Option<seq<Byte>>)
    requires 2 <= |s| <= 4
    requires forall k :: 0 <= k < |s| ==> IsSymbol(s[k])
    ensures r.Some? ==> |r.value| == |s| - 1
  {
    Glue(Values(s))
  }

  /** Decoding a group undoes encoding it. */
  lemma GroupRoundTrip(g: seq<Byte>)
    requires 1 <= |g| <= 3
    ensures DecodeGroup(EncodeGroup(g)) == Some(g)
  {
    ValuesOfSymbols(Sextets(g));
    GlueSextets(g);
  }

  /** `base64.RawURLEncoding.EncodeToString(bytes)`. */
  function Encode(bytes: seq<Byte>): (s: string)
    ensures |s| == EncodedLength(|bytes|)
    ensures forall k :: 0 <= k < |s| ==> IsSymbol(s[k])
    decreases |bytes|
  {
    if |bytes| == 0 then []
    else if |bytes| <= 3 then EncodeGroup(bytes)
    else EncodeGroup(bytes[..3]) + Encode(bytes[3..])
  }

  /** The matching strict decoder: `None` for a length no encoding has, a
      character outside the alphabet, or non-zero trailing bits. */
  function Decode(s: string): (r: Option<seq<Byte>>)
    decreases |s|
  {
    if |s| == 0 then Some([])
    else if |s| == 1 then None
    else if exists k :: 0 <= k < |s| && !IsSymbol(s[k]) then None
    else if |s| <= 4 then DecodeGroup(s)
    else
      match (DecodeGroup(s[..4]), Decode(s[4..]))
      case (Some(head), Some(tail)) => Some(head + tail)
      case _ => None
  }

  /** Decoding undoes encoding: the encoding loses nothing. */
  lemma {:induction false} DecodeEncode(bytes: seq<Byte>)
    ensures Decode(Encode(bytes)) == Some(bytes)
    decreases |bytes|
  {
    var s := Encode(bytes);
    if |bytes| == 0 {
    } else if |bytes| <= 3 {
      GroupRoundTrip(bytes);
    } else {
      GroupRoundTrip(bytes[..3]);
      DecodeEncode(bytes[3..]);
      var head := EncodeGroup(bytes[..3]);
      assert s[..4] == head;
      assert s[4..] == Encode(bytes[3..]);
      assert bytes == bytes[..3] + bytes[3..];
    }
  }

  /** Different byte strings never get the same name. */
  lemma EncodeInjective(a: seq<Byte>, b: seq<Byte>)
    requires Encode(a) == Encode(b)
    ensures a == b
  {
    DecodeEncode(a);
    DecodeEncode(b);
  }

  /** Thirty-two random bytes give a 43-symbol name. */
  lemma ThirtyTwoBytes(bytes: seq<Byte>)
    requires |bytes| == 32
    ensures |Encode(bytes)| == 43
  {
  }
}
