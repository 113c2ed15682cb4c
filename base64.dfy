/**
 * The base64 encoding of section 4 of RFC 4648. Every 3 bytes become four
 * 6-bit values, written with the alphabet A-Z a-z 0-9 + /; a final group of one
 * or two bytes gives two or three values and is padded with '=' to four
 * symbols. This is what the browser's `btoa` produces from a binary string and
 * what `atob` turns back into one.
 */
module Base64 {
  import opened Wrappers

  /** An octet, as its eight bits. */
  type Byte = bv8
  /** A 6-bit value, held in the low bits of an octet. */
  type Sextet = x: bv8 | x < 64

  const Pad: char := '='

  /** Symbol of the 6-bit value `k` (Table 1 of RFC 4648). */
  function SymbolOf(k: int): (c: char)
    requires 0 <= k < 64
    ensures c != Pad
  {
    if k < 26 then ('A' as int + k) as char
    else if k < 52 then ('a' as int + (k - 26)) as char
    else if k < 62 then ('0' as int + (k - 52)) as char
    else if k == 62 then '+'
    else '/'
  }

  /** The 6-bit value of an alphabet character, as a number; None for anything else. */
  function ValueOf(c: char): (r: Option<int>)
    ensures r.Some? ==> 0 <= r.value < 64
    ensures c == Pad ==> r.None?
  {
    if 'A' <= c <= 'Z' then Some(c as int - 'A' as int)
    else if 'a' <= c <= 'z' then Some(c as int - 'a' as int + 26)
    else if '0' <= c <= '9' then Some(c as int - '0' as int + 52)
    else if c == '+' then Some(62)
    else if c == '/' then Some(63)
    else None
  }

  /** The alphabet maps 64 values to 64 distinct characters. */
  lemma ValueOfSymbolOf(k: int)
    requires 0 <= k < 64
    ensures ValueOf(SymbolOf(k)) == Some(k)
  {
  }

  /** Symbol of a 6-bit value. */
  function Symbol(v: Sextet): (c: char)
    ensures c != Pad
  {
    SymbolOf(v as int)
  }

  /** The 6-bit value of an alphabet character; None for anything else, padding included. */
  function Value(c: char): (r: Option<Sextet>)
    ensures c == Pad ==> r.None?
  {
    var k := ValueOf(c);
    if k.Some? then Some(k.value as bv8) else None
  }

  lemma ValueOfSymbol(v: Sextet)
    ensures Value(Symbol(v)) == Some(v)
  {
    ValueOfSymbolOf(v as int);
    NumberOfOctet(v);
  }

  /** Reading an octet as a number and storing the number again gives the octet back. */
  lemma NumberOfOctet(v: bv8)
    ensures (v as int) as bv8 == v
  {
  }

  /** The 6-bit values of a byte sequence, four per complete group of three bytes. */
  function Sextets(bs: seq<Byte>): (xs: seq<Sextet>)
    decreases |bs|
  {
    if |bs| == 0 then []
    else if |bs| == 1 then [bs[0] >> 2, (bs[0] & 3) << 4]
    else if |bs| == 2 then [bs[0] >> 2, ((bs[0] & 3) << 4) | (bs[1] >> 4), (bs[1] & 15) << 2]
    else [bs[0] >> 2, ((bs[0] & 3) << 4) | (bs[1] >> 4), ((bs[1] & 15) << 2) | (bs[2] >> 6), bs[2] & 63] + Sextets(bs[3..])
  }

  function Symbols(xs: seq<Sextet>): (s: string)
    ensures |s| == |xs| && Pad !in s
  {
    seq(|xs|, i requires 0 <= i < |xs| => Symbol(xs[i]))
  }

  /** The '=' characters completing the last group of an input of `n` bytes. */
  function Padding(n: nat): (p: string)
    ensures |p| <= 2 && forall i :: 0 <= i < |p| ==> p[i] == Pad
  {
    if n == 1 then [Pad, Pad] else if n == 2 then [Pad] else if n < 3 then [] else Padding(n - 3)
  }

  /** Number of groups of three bytes, the last possibly incomplete, in `n` bytes. */
  function Groups(n: nat): nat
  {
    if n == 0 then 0 else if n <= 3 then 1 else 1 + Groups(n - 3)
  }

  /** What `btoa` returns for a binary string whose character codes are `bs`. */
  function Encode(bs: seq<Byte>): (s: string)
  {
    Symbols(Sextets(bs)) + Padding(|bs|)
  }

  /** The byte carried by a value's six bits and the high two bits of the next. */
  function Byte0(w: Sextet, x: Sextet): Byte { (w << 2) | (x >> 4) }
  /** The byte carried by the low four bits of one value and the high four of the next. */
  function Byte1(x: Sextet, y: Sextet): Byte { ((x & 15) << 4) | (y >> 2) }
  /** The byte carried by the low two bits of one value and all six of the next. */
  function Byte2(y: Sextet, z: Sextet): Byte { ((y & 3) << 6) | z }

  /**
   * Bytes from 6-bit values, three per complete group of four. A final group
   * of two or three values gives one or two bytes and its leftover low bits are
   * discarded, as `atob` does; a final group of one value is an error.
   */
  function Unsextets(xs: seq<Sextet>): (r: Option<seq<Byte>>)
    decreases |xs|
  {
    if |xs| == 0 then Some([])
    else if |xs| == 1 then None
    else if |xs| == 2 then Some([Byte0(xs[0], xs[1])])
    else if |xs| == 3 then Some([Byte0(xs[0], xs[1]), Byte1(xs[1], xs[2])])
    else
      var rest := Unsextets(xs[4..]);
      if rest.Some? then Some([Byte0(xs[0], xs[1]), Byte1(xs[1], xs[2]), Byte2(xs[2], xs[3])] + rest.value)
      else None
  }

  /** Number of '=' that end `s`, counting at most two. */
  function PadCount(s: string): (n: nat)
    ensures n <= 2 && n <= |s|
  {
    if |s| >= 2 && s[|s| - 1] == Pad && s[|s| - 2] == Pad then 2
    else if |s| >= 1 && s[|s| - 1] == Pad then 1
    else 0
  }

  predicate AllSymbols(s: string) {
    forall i :: 0 <= i < |s| ==> Value(s[i]).Some?
  }

  function Values(s: string): (xs: seq<Sextet>)
    requires AllSymbols(s)
    ensures |xs| == |s|
  {
    seq(|s|, i requires 0 <= i < |s| && AllSymbols(s) => Value(s[i]).value)
  }

  /**
   * What `atob` returns, as bytes: None (atob throws) when the length is not a
   * multiple of four, or when, once at most two trailing '=' are set aside, a
   * character outside the alphabet remains.
   */
  function Decode(s: string): (r: Option<seq<Byte>>)
    ensures |s| % 4 != 0 ==> r.None?
  {
    if |s| % 4 != 0 then None
    else
      var body := s[..|s| - PadCount(s)];
      if AllSymbols(body) then Unsextets(Values(body)) else None
  }

  /** Bytes come back from their 6-bit values, three at a time. */
  lemma {:induction false} UnsextetsSextets(bs: seq<Byte>)
    ensures Unsextets(Sextets(bs)) == Some(bs)
    decreases |bs|
  {
    if |bs| == 1 {
      assert [bs[0]] == bs;
    } else if |bs| == 2 {
      assert [bs[0], bs[1]] == bs;
    } else if |bs| >= 3 {
      UnsextetsSextets(bs[3..]);
      assert Sextets(bs)[4..] == Sextets(bs[3..]);
      assert [bs[0], bs[1], bs[2]] + bs[3..] == bs;
    }
  }

  lemma ValuesSymbols(xs: seq<Sextet>)
    ensures AllSymbols(Symbols(xs)) && Values(Symbols(xs)) == xs
  {
    var s := Symbols(xs);
    forall i | 0 <= i < |s| ensures Value(s[i]) == Some(xs[i]) {
      ValueOfSymbol(xs[i]);
    }
  }

  /** Every started group of three bytes becomes four symbols. */
  lemma {:induction false} SextetsLength(bs: seq<Byte>)
    ensures |Sextets(bs)| + |Padding(|bs|)| == 4 * Groups(|bs|)
    decreases |bs|
  {
    if |bs| > 3 {
      SextetsLength(bs[3..]);
      assert |Sextets(bs)| == 4 + |Sextets(bs[3..])|;
    }
  }

  lemma {:induction false} GroupsCount(n: nat)
    ensures Groups(n) == (n + 2) / 3
  {
    if n > 3 {
      GroupsCount(n - 3);
    }
  }

  lemma EncodeLength(bs: seq<Byte>)
    ensures |Encode(bs)| == (|bs| + 2) / 3 * 4
    ensures |Encode(bs)| % 4 == 0
  {
    SextetsLength(bs);
    GroupsCount(|bs|);
  }

  lemma DecodeBody(s: string, body: string)
    requires |s| % 4 == 0 && body == s[..|s| - PadCount(s)] && AllSymbols(body)
    ensures Decode(s) == Unsextets(Values(body))
  {
  }

  /** Decoding undoes encoding, for every byte sequence including the empty one. */
  lemma DecodeEncode(bs: seq<Byte>)
    ensures Decode(Encode(bs)) == Some(bs)
  {
    var xs, p := Sextets(bs), Padding(|bs|);
    var s := Encode(bs);
    EncodeLength(bs);
    assert s == Symbols(xs) + p;
    assert PadCount(s) == |p|;
    ValuesSymbols(xs);
    DecodeBody(s, Symbols(xs));
    UnsextetsSextets(bs);
  }
}
