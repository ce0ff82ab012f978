/**
 * UTF-8 (RFC 3629) and the standard base 64 encoding of section 4 of
 * RFC 4648, as `Data(s.utf8).base64EncodedString()` produces them, and
 * `replacingOccurrences(of: "==", with: "")`.
 */
module Base64 {

  type byte = x: int | 0 <= x < 256

  /** Characters of the base 64 alphabet of RFC 4648 section 4, table 1. */
  predicate InAlphabet(c: char) {
    ('A' <= c <= 'Z') || ('a' <= c <= 'z') || ('0' <= c <= '9') || c == '+' || c == '/'
  }

  /** The UTF-8 encoding of one Unicode scalar value. */
  function Utf8Char(c: char): (bs: seq<byte>)
    ensures 1 <= |bs| <= 4
    ensures (c as int) < 0x80 ==> bs == [c as int]
  {
    var n := c as int;
    if n < 0x80 then [n]
    else if n < 0x800 then [0xC0 + n / 64, 0x80 + n % 64]
    else if n < 0x10000 then [0xE0 + n / 4096, 0x80 + (n / 64) % 64, 0x80 + n % 64]
    else [0xF0 + n / 262144, 0x80 + (n / 4096) % 64, 0x80 + (n / 64) % 64, 0x80 + n % 64]
  }

  /** `Data(s.utf8)`. */
  function Utf8(s: string): (bs: seq<byte>)
    ensures |s| <= |bs| <= 4 * |s|
  {
    if s == [] then [] else Utf8Char(s[0]) + Utf8(s[1..])
  }

  /** The code point a one- to four-byte UTF-8 sequence stands for, read back from its bits. */
  function Utf8Value(bs: seq<byte>): int
    requires 1 <= |bs| <= 4
  {
    var b0 := bs[0] as int;
    if |bs| == 1 then b0
    else if |bs| == 2 then (b0 - 0xC0) * 64 + (bs[1] as int - 0x80)
    else if |bs| == 3 then (b0 - 0xE0) * 4096 + (bs[1] as int - 0x80) * 64 + (bs[2] as int - 0x80)
    else (b0 - 0xF0) * 262144 + (bs[1] as int - 0x80) * 4096 + (bs[2] as int - 0x80) * 64 + (bs[3] as int - 0x80)
  }

  lemma TwoByteBits(n: int)
    requires 0x80 <= n < 0x800
    ensures 2 <= n / 64 < 32 && (n / 64) * 64 + n % 64 == n
  {
  }

  lemma ThreeByteBits(n: int)
    requires 0x800 <= n < 0x10000
    ensures 0 <= n / 4096 < 16 && (n / 4096) * 4096 + ((n / 64) % 64) * 64 + n % 64 == n
  {
    assert n == (n / 64) * 64 + n % 64;
    assert n / 64 == (n / 4096) * 64 + (n / 64) % 64;
  }

  lemma FourByteBits(n: int)
    requires 0x10000 <= n < 0x110000
    ensures 0 <= n / 262144 < 5 && (n / 262144) * 262144 + ((n / 4096) % 64) * 4096 + ((n / 64) % 64) * 64 + n % 64 == n
  {
    assert n / 4096 == (n / 262144) * 64 + (n / 4096) % 64;
    assert n == (n / 64) * 64 + n % 64;
    assert n / 64 == (n / 4096) * 64 + (n / 64) % 64;
  }

  /** The lead byte tells the length of a character's encoding, and the bits give the character back. */
  lemma Utf8CharDecodes(c: char)
    ensures var bs := Utf8Char(c);
      && (bs[0] < 0x80 <==> |bs| == 1)
      && (0xC0 <= bs[0] < 0xE0 <==> |bs| == 2)
      && (0xE0 <= bs[0] < 0xF0 <==> |bs| == 3)
      && (0xF0 <= bs[0] <==> |bs| == 4)
      && Utf8Value(bs) == c as int
  {
    var n := c as int;
    if n >= 0x10000 {
      FourByteBits(n);
    } else if n >= 0x800 {
      ThreeByteBits(n);
    } else if n >= 0x80 {
      TwoByteBits(n);
    }
  }

  /** Equal sequences split at the same place give equal parts. */
  lemma SplitEqual<T>(a: seq<T>, b: seq<T>, c: seq<T>, d: seq<T>)
    requires a + b == c + d && |a| == |c|
    ensures a == c && b == d
  {
    assert a == (a + b)[..|a|] && c == (c + d)[..|c|];
    assert b == (a + b)[|a|..] && d == (c + d)[|c|..];
  }

  /** Distinct strings have distinct UTF-8 encodings. */
  lemma {:induction false} Utf8Injective(s: string, t: string)
    ensures Utf8(s) == Utf8(t) <==> s == t
    decreases |s|
  {
    if Utf8(s) == Utf8(t) && s != [] && t != [] {
      var a, c := Utf8Char(s[0]), Utf8Char(t[0]);
      assert Utf8(s) == a + Utf8(s[1..]) && Utf8(t) == c + Utf8(t[1..]);
      Utf8CharDecodes(s[0]);
      Utf8CharDecodes(t[0]);
      assert a[0] == Utf8(s)[0] == c[0];
      SplitEqual(a, Utf8(s[1..]), c, Utf8(t[1..]));
      assert s[0] == t[0];
      Utf8Injective(s[1..], t[1..]);
      assert s == [s[0]] + s[1..] && t == [t[0]] + t[1..];
    }
  }

  function Sextet(n: int): (c: char)
    requires 0 <= n < 64
    ensures InAlphabet(c) && c != '='
  {
    if n < 26 then ('A' as int + n) as char
    else if n < 52 then ('a' as int + n - 26) as char
    else if n < 62 then ('0' as int + n - 52) as char
    else if n == 62 then '+'
    else '/'
  }

  /** One group of one to three bytes as two to four alphabet characters, high bits first, the last one zero-filled. */
  function EncodeGroup(g: seq<byte>): (c: string)
    requires 1 <= |g| <= 3
    ensures |c| == |g| + 1
    ensures forall i :: 0 <= i < |c| ==> c[i] != '=' && InAlphabet(c[i])
  {
    if |g| == 1 then [Sextet(g[0] / 4), Sextet((g[0] % 4) * 16)]
    else if |g| == 2 then [Sextet(g[0] / 4), Sextet((g[0] % 4) * 16 + g[1] / 16), Sextet((g[1] % 16) * 4)]
    else [Sextet(g[0] / 4), Sextet((g[0] % 4) * 16 + g[1] / 16), Sextet((g[1] % 16) * 4 + g[2] / 64), Sextet(g[2] % 64)]
  }

  /** The encoding without its final `=` padding: 4 characters per full group of 3 bytes, then 2 or 3 for a partial group. */
  function EncodeUnpadded(bs: seq<byte>): (s: string)
    ensures forall i :: 0 <= i < |s| ==> s[i] != '=' && InAlphabet(s[i])
    ensures |s| == 4 * (|bs| / 3) + (if |bs| % 3 == 0 then 0 else |bs| % 3 + 1)
    decreases |bs|
  {
    if |bs| == 0 then ""
    else if |bs| < 3 then EncodeGroup(bs)
    else
      var rest := EncodeUnpadded(bs[3..]);
      assert |bs[3..]| / 3 == |bs| / 3 - 1 && |bs[3..]| % 3 == |bs| % 3;
      EncodeGroup(bs[..3]) + rest
  }

  /** The value of an alphabet character: the inverse of `Sextet`. */
  function SextetValue(c: char): (n: int)
    ensures 0 <= n < 64
  {
    if 'A' <= c <= 'Z' then c as int - 'A' as int
    else if 'a' <= c <= 'z' then c as int - 'a' as int + 26
    else if '0' <= c <= '9' then c as int - '0' as int + 52
    else if c == '+' then 62
    else 63
  }

  lemma SextetValueOfSextet(n: int)
    requires 0 <= n < 64
    ensures SextetValue(Sextet(n)) == n
  {
  }

  /** One group of two to four characters back to one to three bytes; zero-fill bits are dropped. */
  function DecodeGroup(c: string): (g: seq<byte>)
    requires 2 <= |c| <= 4
    ensures |g| == |c| - 1
  {
    var v0, v1 := SextetValue(c[0]), SextetValue(c[1]);
    if |c| == 2 then [v0 * 4 + v1 / 16]
    else
      var v2 := SextetValue(c[2]);
      if |c| == 3 then [v0 * 4 + v1 / 16, (v1 % 16) * 16 + v2 / 4]
      else [v0 * 4 + v1 / 16, (v1 % 16) * 16 + v2 / 4, (v2 % 4) * 64 + SextetValue(c[3])]
  }

  /** Decoding of an unpadded encoding, group by group; a lone trailing character carries no whole byte. */
  function DecodeUnpadded(s: string): seq<byte>
    decreases |s|
  {
    if |s| < 2 then []
    else if |s| < 4 then DecodeGroup(s)
    else DecodeGroup(s[..4]) + DecodeUnpadded(s[4..])
  }

  /** The bit regrouping of one group is undone by the decoder's regrouping. */
  lemma GroupRoundTrip(g: seq<byte>)
    requires 1 <= |g| <= 3
    ensures DecodeGroup(EncodeGroup(g)) == g
  {
    var c := EncodeGroup(g);
    var b0 := g[0];
    var b1 := if |g| >= 2 then g[1] else 0;
    var b2 := if |g| == 3 then g[2] else 0;
    var v0, v1, v2 := b0 / 4, (b0 % 4) * 16 + b1 / 16, (b1 % 16) * 4 + b2 / 64;
    assert v1 / 16 == b0 % 4 && v1 % 16 == b1 / 16;
    assert v2 / 4 == b1 % 16 && v2 % 4 == b2 / 64;
    SextetValueOfSextet(v0);
    SextetValueOfSextet(v1);
    assert SextetValue(c[0]) == v0 && SextetValue(c[1]) == v1;
    var r := DecodeGroup(c);
    assert r[0] == g[0];
    if |g| >= 2 {
      SextetValueOfSextet(v2);
      assert SextetValue(c[2]) == v2;
      assert r[1] == g[1];
    }
    if |g| == 3 {
      SextetValueOfSextet(b2 % 64);
      assert SextetValue(c[3]) == b2 % 64;
      assert r[2] == g[2];
    }
  }

  /** Decoding undoes the unpadded encoding, so no two byte strings share one. */
  lemma {:induction false} DecodeEncodeUnpadded(bs: seq<byte>)
    ensures DecodeUnpadded(EncodeUnpadded(bs)) == bs
    decreases |bs|
  {
    if 1 <= |bs| < 3 {
      GroupRoundTrip(bs);
    } else if |bs| >= 3 {
      var s := EncodeUnpadded(bs);
      assert s[..4] == EncodeGroup(bs[..3]) && s[4..] == EncodeUnpadded(bs[3..]);
      GroupRoundTrip(bs[..3]);
      DecodeEncodeUnpadded(bs[3..]);
      assert bs == bs[..3] + bs[3..];
    }
  }

  /** An `=`-free encoding followed by at most one `=` splits back into the two parts. */
  lemma SplitTrailingEquals(e1: string, p1: string, e2: string, p2: string)
    requires forall i :: 0 <= i < |e1| ==> e1[i] != '='
    requires forall i :: 0 <= i < |e2| ==> e2[i] != '='
    requires p1 in {"", "="} && p2 in {"", "="}
    requires e1 + p1 == e2 + p2
    ensures e1 == e2 && p1 == p2
  {
    var s := e1 + p1;
    assert (p1 == "=") == (|s| > 0 && s[|s| - 1] == '=');
    assert (p2 == "=") == (|s| > 0 && s[|s| - 1] == '=');
    assert e1 == s[..|e1|] && e2 == s[..|e2|];
  }

  /** The padding that completes the final quantum: two `=` after one byte, one after two. */
  function Padding(bs: seq<byte>): string {
    if |bs| % 3 == 1 then "==" else if |bs| % 3 == 2 then "=" else ""
  }

  lemma PaddedLength(n: nat, unpadded: nat, padding: nat)
    requires unpadded == 4 * (n / 3) + (if n % 3 == 0 then 0 else n % 3 + 1)
    requires padding == if n % 3 == 1 then 2 else if n % 3 == 2 then 1 else 0
    ensures (unpadded + padding) % 4 == 0
  {
    var q := n / 3;
    assert unpadded + padding == 4 * q + (if n % 3 == 0 then 0 else 4);
  }

  /** `base64EncodedString()`: padded to a multiple of four characters. */
  function Encode(bs: seq<byte>): (s: string)
    ensures |s| % 4 == 0
  {
    PaddedLength(|bs|, |EncodeUnpadded(bs)|, |Padding(bs)|);
    EncodeUnpadded(bs) + Padding(bs)
  }

  /** `replacingOccurrences(of: "==", with: "")`: non-overlapping occurrences, found left to right, are removed. */
  function RemoveDoubleEquals(s: string): (r: string)
    ensures |r| <= |s|
    decreases |s|
  {
    if |s| >= 2 && s[0] == '=' && s[1] == '=' then RemoveDoubleEquals(s[2..])
    else if s == [] then []
    else [s[0]] + RemoveDoubleEquals(s[1..])
  }

  lemma {:induction false} RemoveDoubleEqualsPrefix(s: string, t: string)
    requires forall i :: 0 <= i < |s| ==> s[i] != '='
    ensures RemoveDoubleEquals(s + t) == s + RemoveDoubleEquals(t)
    decreases |s|
  {
    if s == [] {
      assert s + t == t;
    } else {
      assert (s + t)[0] == s[0];
      assert (s + t)[1..] == s[1..] + t;
      RemoveDoubleEqualsPrefix(s[1..], t);
    }
  }

  /**
   * Removing "==" from an encoding strips exactly the two-character padding:
   * a single `=` stays, and nothing else is touched.
   */
  lemma StrippedEncoding(bs: seq<byte>)
    ensures RemoveDoubleEquals(Encode(bs)) == EncodeUnpadded(bs) + (if |bs| % 3 == 2 then "=" else "")
  {
    RemoveDoubleEqualsPrefix(EncodeUnpadded(bs), Padding(bs));
    assert RemoveDoubleEquals("==") == "";
    assert RemoveDoubleEquals("=") == "=";
    assert EncodeUnpadded(bs) + "" == EncodeUnpadded(bs);
  }
}
