/**
 * The audio and encoding helpers of the interview client: sample format
 * conversion between float and 16-bit PCM, the binary-string loops around
 * the browser's base64 functions, sample-rate conversion and the random
 * version-4 identifier.
 *
 * Samples are exact reals: the rounding of 32-bit floats is not modelled.
 * Typed-array views are little-endian, as on every platform the client runs on.
 */
module AudioUtils {
  import opened Wrappers
  import Base64
  import Octets

  type Byte = Base64.Byte

  /** A value an Int16Array element holds. */
  type Int16 = x: int | -0x8000 <= x < 0x8000

  /** The DOMException name `btoa` and `atob` throw with. */
  const InvalidCharacter: string := "InvalidCharacterError"

  // ---------------------------------------------------------------------------
  // Float and 16-bit samples

  /**
   * `Math.max(-1, Math.min(1, x))`. Clamping is itself the promise, so the
   * contract states it case by case: inside values kept, outside ones sent
   * to the nearer end.
   */
  function Clamp(x: real): (s: real)
    ensures -1.0 <= s <= 1.0
    ensures -1.0 <= x <= 1.0 ==> s == x
    ensures x < -1.0 ==> s == -1.0
    ensures x > 1.0 ==> s == 1.0
  {
    if x < -1.0 then -1.0 else if x > 1.0 then 1.0 else x
  }

  /** What a store of a fractional value into an integer typed array keeps: the integer part, toward zero. */
  function Truncate(x: real): (k: int)
    ensures 0.0 <= x ==> 0 <= k && k as real <= x < k as real + 1.0
    ensures x < 0.0 ==> k <= 0 && k as real - 1.0 < x <= k as real
  {
    if x >= 0.0 then x.Floor else -((-x).Floor)
  }

  /** One sample of `float32ToInt16`: negative values scale by 0x8000, the others by 0x7fff. */
  function ToInt16(x: real): (k: Int16)
    ensures x < 0.0 ==> k <= 0
    ensures x >= 0.0 ==> k >= 0
    ensures x <= -1.0 ==> k == -0x8000
    ensures x >= 1.0 ==> k == 0x7fff
  {
    var s := Clamp(x);
    if s < 0.0 then Truncate(s * 32768.0) else Truncate(s * 32767.0)
  }

  /** One sample of `int16ToFloat32`. */
  function FromInt16(k: Int16): (x: real)
    ensures -1.0 <= x < 1.0
  {
    k as real / 32768.0
  }

  /**
   * Converting a sample in [-1, 1] to 16 bits and back loses less than one
   * step of 1/32768 below zero and less than two steps above it, where the
   * scale factors differ.
   */
  lemma Int16RoundTrip(x: real)
    requires -1.0 <= x <= 1.0
    ensures x <= 0.0 ==> x <= FromInt16(ToInt16(x)) < x + 1.0 / 32768.0
    ensures x > 0.0 ==> x - 2.0 / 32768.0 < FromInt16(ToInt16(x)) <= x
  {
    var k := ToInt16(x);
    if x < 0.0 {
      assert k as real - 1.0 < x * 32768.0 <= k as real;
    } else if x > 0.0 {
      assert k as real <= x * 32767.0 < k as real + 1.0;
    }
  }

  /** The samples `float32ToInt16` produces. */
  function Int16Samples(xs: seq<real>): (ks: seq<Int16>)
    ensures |ks| == |xs|
    ensures forall i :: 0 <= i < |xs| ==> ks[i] == ToInt16(xs[i])
  {
    seq(|xs|, i requires 0 <= i < |xs| => ToInt16(xs[i]))
  }

  /** `float32ToInt16`: one 16-bit sample per input sample. */
  method Float32ToInt16(input: array<real>) returns (out: array<Int16>)
    ensures fresh(out) && out[..] == Int16Samples(input[..])
  {
    out := new Int16[input.Length];
    for i := 0 to input.Length
      invariant forall j :: 0 <= j < i ==> out[j] == ToInt16(input[j])
    {
      out[i] := ToInt16(input[i]);
    }
  }

  /** `int16ToFloat32`: one float sample per 16-bit sample. */
  method Int16ToFloat32(input: array<Int16>) returns (out: array<real>)
    ensures fresh(out) && out.Length == input.Length
    ensures forall i :: 0 <= i < input.Length ==> out[i] == FromInt16(input[i])
  {
    out := new real[input.Length];
    for i := 0 to input.Length
      invariant forall j :: 0 <= j < i ==> out[j] == FromInt16(input[j])
    {
      out[i] := FromInt16(input[i]);
    }
  }

  // ---------------------------------------------------------------------------
  // Typed-array views of a byte buffer

  /** The low byte of a 16-bit sample in two's complement. */
  function LowByte(k: Int16): Byte {
    ((k % 0x1_0000) % 256) as bv8
  }

  /** The high byte of a 16-bit sample in two's complement. */
  function HighByte(k: Int16): Byte {
    ((k % 0x1_0000) / 256) as bv8
  }

  /** The bytes of an Int16Array's buffer: each sample little-endian, low byte first. */
  function Int16Bytes(xs: seq<Int16>): (bs: seq<Byte>)
    ensures |bs| == 2 * |xs|
  {
    if |xs| == 0 then [] else Int16Bytes(xs[..|xs| - 1]) + [LowByte(xs[|xs| - 1]), HighByte(xs[|xs| - 1])]
  }

  /** `int16Array.buffer`, as a byte array of its own. */
  method Int16Buffer(samples: array<Int16>) returns (buffer: array<Byte>)
    ensures fresh(buffer) && buffer[..] == Int16Bytes(samples[..])
  {
    buffer := new Byte[2 * samples.Length];
    for i := 0 to samples.Length
      invariant buffer[..2 * i] == Int16Bytes(samples[..i])
    {
      buffer[2 * i] := LowByte(samples[i]);
      buffer[2 * i + 1] := HighByte(samples[i]);
      assert samples[..i + 1][..i] == samples[..i];
      assert buffer[..2 * (i + 1)] == buffer[..2 * i] + [buffer[2 * i], buffer[2 * i + 1]];
    }
    assert buffer[..] == buffer[..2 * samples.Length];
    assert samples[..] == samples[..samples.Length];
  }

  /** The 16-bit sample stored little-endian in two bytes. */
  function SampleOf(lo: Byte, hi: Byte): (k: Int16)
    ensures k < 0 <==> hi >= 0x80
  {
    var u := hi as int * 256 + lo as int;
    if u >= 0x8000 then u - 0x1_0000 else u
  }

  /** The elements of `new Int16Array(buffer)`, for a buffer of even length. */
  function Int16View(bs: seq<Byte>): (xs: seq<Int16>)
    requires |bs| % 2 == 0
    ensures |xs| == |bs| / 2
  {
    seq(|bs| / 2, i requires 0 <= i < |bs| / 2 => SampleOf(bs[2 * i], bs[2 * i + 1]))
  }

  /** Sample `i` sits little-endian at bytes `2 * i` and `2 * i + 1`. */
  lemma {:induction false} Int16BytesAt(xs: seq<Int16>, i: nat)
    requires i < |xs|
    ensures Int16Bytes(xs)[2 * i] == LowByte(xs[i]) && Int16Bytes(xs)[2 * i + 1] == HighByte(xs[i])
    decreases |xs|
  {
    var n := |xs| - 1;
    if i < n {
      Int16BytesAt(xs[..n], i);
      assert xs[..n][i] == xs[i];
    }
  }

  /** Reading the two bytes a sample is written as gives the sample back. */
  lemma SampleOfBytes(k: Int16)
    ensures SampleOf(LowByte(k), HighByte(k)) == k
  {
    var u := k % 0x1_0000;
    assert u == if k < 0 then k + 0x1_0000 else k;
    var lo, hi := u % 256, u / 256;
    assert hi * 256 + lo == u && 0 <= lo < 256 && 0 <= hi < 256;
    Octets.OctetOfNumber(lo);
    Octets.OctetOfNumber(hi);
  }

  /** The Int16Array view of a buffer written from samples holds those samples: playback reads what the microphone path writes. */
  lemma Int16ViewOfBytes(xs: seq<Int16>)
    ensures Int16View(Int16Bytes(xs)) == xs
  {
    var bs := Int16Bytes(xs);
    assert |Int16View(bs)| == |xs|;
    forall i | 0 <= i < |xs|
      ensures Int16View(bs)[i] == xs[i]
    {
      Int16BytesAt(xs, i);
      SampleOfBytes(xs[i]);
    }
  }

  // ---------------------------------------------------------------------------
  // Binary strings and base64

  /** The string `arrayBufferToBase64` builds with `String.fromCharCode`, one character per byte. */
  function Binary(bs: seq<Byte>): (s: string)
    ensures |s| == |bs|
    ensures forall i :: 0 <= i < |bs| ==> s[i] as int == bs[i] as int
  {
    seq(|bs|, i requires 0 <= i < |bs| => (bs[i] as int) as char)
  }

  /** The bytes of a Uint8Array filled with the character codes of `s`; each store keeps the low eight bits. */
  function CharCodes(s: string): (bs: seq<Byte>)
    ensures |bs| == |s|
  {
    seq(|s|, i requires 0 <= i < |s| => ((s[i] as int) % 256) as bv8)
  }

  /** Every character code is below 256, as `btoa` demands. */
  predicate IsLatin1(s: string) {
    forall i :: 0 <= i < |s| ==> s[i] as int < 256
  }

  /** Storing the characters of a binary string gives back the bytes it was built from. */
  lemma CharCodesBinary(bs: seq<Byte>)
    ensures IsLatin1(Binary(bs)) && CharCodes(Binary(bs)) == bs
  {
    var s := Binary(bs);
    forall i | 0 <= i < |bs| ensures CharCodes(s)[i] == bs[i] {
      Base64.NumberOfOctet(bs[i]);
    }
  }

  /** `btoa`: throws for a character outside Latin-1, otherwise base64 of the character codes. */
  function Btoa(s: string): (r: Result<string, string>)
    ensures r.Success? <==> IsLatin1(s)
    ensures r.Failure? ==> r.error == InvalidCharacter
  {
    if IsLatin1(s) then Success(Base64.Encode(CharCodes(s))) else Failure(InvalidCharacter)
  }

  /** `atob`: the binary string of the decoded bytes, or a throw for text that is not base64. */
  function Atob(s: string): (r: Result<string, string>)
    ensures r.Success? <==> Base64.Decode(s).Some?
    ensures r.Success? ==> IsLatin1(r.value) && CharCodes(r.value) == Base64.Decode(s).value
    ensures r.Failure? ==> r.error == InvalidCharacter
  {
    match Base64.Decode(s)
    case Some(bs) => CharCodesBinary(bs); Success(Binary(bs))
    case None => Failure(InvalidCharacter)
  }

  /** `arrayBufferToBase64`: the binary string of the buffer, then `btoa`, which cannot throw here. */
  method ArrayBufferToBase64(buffer: array<Byte>) returns (s: string)
    ensures Btoa(Binary(buffer[..])) == Success(s)
    ensures s == Base64.Encode(buffer[..])
  {
    var binary := "";
    for i := 0 to buffer.Length
      invariant |binary| == i
      invariant forall j :: 0 <= j < i ==> binary[j] as int == buffer[j] as int
    {
      binary := binary + [(buffer[i] as int) as char];
    }
    assert binary == Binary(buffer[..]);
    CharCodesBinary(buffer[..]);
    var r := Btoa(binary);
    s := r.value;
  }

  /** `base64ToArrayBuffer`: `atob`, whose throw propagates, then one byte per character. */
  method Base64ToArrayBuffer(base64: string) returns (r: Result<array<Byte>, string>)
    ensures Atob(base64).Failure? ==> r.Failure? && r.error == InvalidCharacter
    ensures Atob(base64).Success? ==> r.Success? && fresh(r.value) && r.value[..] == CharCodes(Atob(base64).value)
  {
    var decoded := Atob(base64);
    if decoded.Failure? {
      return Failure(decoded.error);
    }
    var bytes := StoreCharCodes(decoded.value);
    return Success(bytes);
  }

  /** The copy loop of `base64ToArrayBuffer`: a new Uint8Array holding the character codes of `binary`. */
  method StoreCharCodes(binary: string) returns (bytes: array<Byte>)
    ensures fresh(bytes) && bytes[..] == CharCodes(binary)
  {
    ghost var codes := CharCodes(binary);
    bytes := new Byte[|binary|];
    for i := 0 to |binary|
      invariant forall j :: 0 <= j < i ==> bytes[j] == codes[j]
    {
      bytes[i] := ((binary[i] as int) % 256) as bv8;
    }
    assert bytes[..] == codes;
  }

  /**
   * The buffer `arrayBufferToBase64` encodes is what `base64ToArrayBuffer`
   * gives back, for every byte sequence including the empty one.
   */
  lemma BufferRoundTrip(bs: seq<Byte>)
    ensures Atob(Base64.Encode(bs)).Success?
    ensures CharCodes(Atob(Base64.Encode(bs)).value) == bs
  {
    Base64.DecodeEncode(bs);
  }

  // ---------------------------------------------------------------------------
  // Sample-rate conversion

  /** `Math.round`: halves round up. */
  function Round(x: real): (k: int)
    ensures x - 0.5 < k as real <= x + 0.5
  {
    (x + 0.5).Floor
  }

  /** Output length of `resampleAudio` for `n` input samples and the ratio of input to output rate. */
  function ResampledLength(n: nat, ratio: real): (m: int)
    requires ratio > 0.0
    ensures m >= 0
  {
    Round(n as real / ratio)
  }

  /** `Math.floor(i * ratio)`: the input sample output `i` starts from. */
  function Left(n: nat, ratio: real, i: nat): (lo: nat)
    requires ratio > 0.0 && i < ResampledLength(n, ratio)
    ensures lo < n
  {
    InBounds(n, ratio, i);
    (i as real * ratio).Floor
  }

  /** `Math.min(lo + 1, n - 1)`: its right-hand neighbour, or itself at the end of the input. */
  function Right(n: nat, lo: nat): (hi: nat)
    requires lo < n
    ensures lo <= hi < n
  {
    if lo + 1 < n - 1 then lo + 1 else n - 1
  }

  /**
   * Output sample `i`: the input at `i * ratio`, interpolated linearly
   * between its two neighbours, so it lies between the two samples it is
   * taken from.
   */
  function Interpolated(xs: seq<real>, ratio: real, i: nat): (v: real)
    requires ratio > 0.0 && i < ResampledLength(|xs|, ratio)
    ensures var a, b := xs[Left(|xs|, ratio, i)], xs[Right(|xs|, Left(|xs|, ratio, i))];
            (a <= v <= b) || (b <= v <= a)
  {
    var lo := Left(|xs|, ratio, i);
    var fraction := i as real * ratio - lo as real;
    assert 0.0 <= fraction < 1.0;
    ConvexBetween(xs[lo], xs[Right(|xs|, lo)], fraction);
    xs[lo] * (1.0 - fraction) + xs[Right(|xs|, lo)] * fraction
  }

  /** The sample read for output `i` lies inside the input. */
  lemma InBounds(n: nat, ratio: real, i: nat)
    requires ratio > 0.0 && i < ResampledLength(n, ratio)
    ensures 0 <= (i as real * ratio).Floor < n
  {
    var m := ResampledLength(n, ratio);
    assert i as real + 1.0 <= m as real <= n as real / ratio + 0.5;
    assert i as real <= n as real / ratio - 0.5;
    assert i as real * ratio <= (n as real / ratio - 0.5) * ratio;
    assert (n as real / ratio) * ratio == n as real;
  }

  /** A weighted mean of two values lies between them. */
  lemma ConvexBetween(a: real, b: real, f: real)
    requires 0.0 <= f <= 1.0
    ensures var v := a * (1.0 - f) + b * f; (a <= v <= b) || (b <= v <= a)
  {
    var d := (b - a) * f;
    assert a * (1.0 - f) + b * f == a + d;
    if a <= b {
      ProductNonNegative(b - a, f);
      ProductNonNegative(b - a, 1.0 - f);
      assert (b - a) - d == (b - a) * (1.0 - f);
    } else {
      ProductNonNegative(a - b, f);
      ProductNonNegative(a - b, 1.0 - f);
      assert -d == (a - b) * f;
      assert d - (b - a) == (a - b) * (1.0 - f);
    }
  }

  lemma ProductNonNegative(x: real, y: real)
    requires x >= 0.0 && y >= 0.0
    ensures x * y >= 0.0
  {
  }

  /** The samples `resampleAudio` returns. */
  function Resample(xs: seq<real>, inputRate: real, outputRate: real): (ys: seq<real>)
    requires inputRate > 0.0 && outputRate > 0.0
    ensures inputRate == outputRate ==> ys == xs
    ensures inputRate != outputRate ==> |ys| == ResampledLength(|xs|, inputRate / outputRate)
  {
    if inputRate == outputRate then xs
    else
      var ratio := inputRate / outputRate;
      seq(ResampledLength(|xs|, ratio), i requires 0 <= i < ResampledLength(|xs|, ratio) => Interpolated(xs, ratio, i))
  }

  /**
   * `resampleAudio`: the input array itself when the rates are equal,
   * otherwise a new array of linearly interpolated samples.
   */
  method ResampleAudio(input: array<real>, inputRate: real, outputRate: real) returns (out: array<real>)
    requires inputRate > 0.0 && outputRate > 0.0
    ensures inputRate == outputRate ==> out == input
    ensures inputRate != outputRate ==> fresh(out)
    ensures out[..] == Resample(input[..], inputRate, outputRate)
  {
    if inputRate == outputRate {
      return input;
    }
    var ratio := inputRate / outputRate;
    var n := ResampledLength(input.Length, ratio);
    out := new real[n];
    for i := 0 to n
      invariant forall j :: 0 <= j < i ==> out[j] == Interpolated(input[..], ratio, j)
    {
      out[i] := Interpolated(input[..], ratio, i);
    }
  }

  // ---------------------------------------------------------------------------
  // Version-4 identifiers

  /** One draw of `(Math.random() * 16) | 0`. */
  type Nibble = x: bv8 | x < 16

  const HexDigits: string := "0123456789abcdef"
  /** The digits `((r & 0x3) | 0x8).toString(16)` can produce. */
  const VariantDigits: string := "89ab"

  /** `n` placeholder characters. */
  function Xs(n: nat): (s: string)
    ensures |s| == n && forall i :: 0 <= i < n ==> s[i] == 'x'
  {
    seq(n, _ => 'x')
  }

  /** The pattern `generateUUID` fills in. */
  const Template: string := Xs(8) + "-" + Xs(4) + "-4" + Xs(3) + "-y" + Xs(3) + "-" + Xs(12)

  /** `v.toString(16)` for a value below 16: the lower-case digit that reads back as `v`. */
  function HexDigit(v: Nibble): (c: char)
    ensures c in HexDigits
    ensures if c <= '9' then c as int - '0' as int == v as int else c as int - 'a' as int + 10 == v as int
  {
    HexDigits[v as int]
  }

  predicate IsPlaceholder(c: char) {
    c == 'x' || c == 'y'
  }

  /** Number of characters of `t` the replacement callback is called on. */
  function Placeholders(t: string): nat
  {
    if |t| == 0 then 0 else (if IsPlaceholder(t[0]) then 1 else 0) + Placeholders(t[1..])
  }

  /**
   * `t.replace(/[xy]/g, …)` with the callback drawing `rs` in order: an 'x'
   * becomes the digit of its draw, a 'y' the digit of the draw with its top
   * two bits set to 10, and every other character stays.
   */
  function Fill(t: string, rs: seq<Nibble>): (u: string)
    requires |rs| == Placeholders(t)
    ensures |u| == |t|
    decreases |t|
  {
    if |t| == 0 then ""
    else if t[0] == 'x' then [HexDigit(rs[0])] + Fill(t[1..], rs[1..])
    else if t[0] == 'y' then [HexDigit((rs[0] & 3) | 8)] + Fill(t[1..], rs[1..])
    else [t[0]] + Fill(t[1..], rs)
  }

  lemma {:induction false} PlaceholdersAppend(a: string, b: string)
    ensures Placeholders(a + b) == Placeholders(a) + Placeholders(b)
  {
    if |a| > 0 {
      assert (a + b)[1..] == a[1..] + b;
      PlaceholdersAppend(a[1..], b);
    } else {
      assert a + b == b;
    }
  }

  lemma {:induction false} PlaceholdersXs(n: nat)
    ensures Placeholders(Xs(n)) == n
  {
    if n > 0 {
      assert Xs(n)[1..] == Xs(n - 1);
      PlaceholdersXs(n - 1);
    }
  }

  /** The pattern has 36 characters, 31 of them placeholders. */
  lemma TemplateSize()
    ensures |Template| == 36 && Placeholders(Template) == 31
  {
    PlaceholdersXs(8);
    PlaceholdersXs(4);
    PlaceholdersXs(3);
    PlaceholdersXs(12);
    var p1 := Xs(8) + "-";
    PlaceholdersAppend(Xs(8), "-");
    var p2 := p1 + Xs(4);
    PlaceholdersAppend(p1, Xs(4));
    var p3 := p2 + "-4";
    PlaceholdersAppend(p2, "-4");
    var p4 := p3 + Xs(3);
    PlaceholdersAppend(p3, Xs(3));
    var p5 := p4 + "-y";
    PlaceholdersAppend(p4, "-y");
    var p6 := p5 + Xs(3);
    PlaceholdersAppend(p5, Xs(3));
    var p7 := p6 + "-";
    PlaceholdersAppend(p6, "-");
    PlaceholdersAppend(p7, Xs(12));
  }

  lemma TemplateLayout()
    ensures |Template| == 36
    ensures forall i :: 0 <= i < 36 ==>
      if i == 8 || i == 13 || i == 18 || i == 23 then Template[i] == '-'
      else if i == 14 then Template[i] == '4'
      else if i == 19 then Template[i] == 'y'
      else Template[i] == 'x'
  {
  }

  /** `generateUUID`, given the 31 draws of its callback. */
  function GenerateUuid(rs: seq<Nibble>): (u: string)
    requires |rs| == 31
    ensures |u| == 36
  {
    TemplateSize();
    Fill(Template, rs)
  }

  /** `(r & 0x3) | 0x8` lies in 8..11. */
  lemma VariantDigit(r: Nibble)
    ensures HexDigit((r & 3) | 8) in VariantDigits
  {
    var v := (r & 3) | 8;
    assert 8 <= v as int < 12;
    assert HexDigits[v as int] == VariantDigits[v as int - 8];
  }

  /** The replacement keeps the length, fills each placeholder with a digit of its kind and keeps the rest. */
  lemma {:induction false} FillShape(t: string, rs: seq<Nibble>)
    requires |rs| == Placeholders(t)
    ensures |Fill(t, rs)| == |t|
    ensures forall i :: 0 <= i < |t| ==>
      if t[i] == 'x' then Fill(t, rs)[i] in HexDigits
      else if t[i] == 'y' then Fill(t, rs)[i] in VariantDigits
      else Fill(t, rs)[i] == t[i]
    decreases |t|
  {
    if |t| > 0 {
      var rest := if IsPlaceholder(t[0]) then rs[1..] else rs;
      FillShape(t[1..], rest);
      if t[0] == 'y' {
        VariantDigit(rs[0]);
      }
    }
  }

  /**
   * The layout of a version-4 identifier: 36 characters, '-' at 8, 13, 18
   * and 23, '4' at 14, one of 8, 9, a, b at 19 and a lower-case hexadecimal
   * digit everywhere else.
   */
  predicate IsUuid(u: string) {
    && |u| == 36
    && forall i :: 0 <= i < 36 ==>
      if i == 8 || i == 13 || i == 18 || i == 23 then u[i] == '-'
      else if i == 14 then u[i] == '4'
      else if i == 19 then u[i] in VariantDigits
      else u[i] in HexDigits
  }

  /** Whatever the draws, `generateUUID` produces an identifier of that layout. */
  lemma UuidLayout(rs: seq<Nibble>)
    requires |rs| == 31
    ensures IsUuid(GenerateUuid(rs))
  {
    TemplateSize();
    TemplateLayout();
    FillShape(Template, rs);
  }
}
