/** DLI2 frames: a fixed 20-byte header (magic, version, metadata length, tensor length,
    little-endian) followed by the metadata bytes and the tensor bytes. */
module Frames {
  import opened Basics

  type Byte = b: nat | b < 256
  type Bytes = seq<Byte>

  datatype Frame = Frame(metadata: Bytes, tensor: Bytes)

  const MAGIC: Bytes := [68, 76, 73, 50]
  const VERSION := 2
  const HEADER_BYTES := 20
  const MAX_METADATA_BYTES := 16 * 1024 * 1024
  const MAX_TENSOR_BYTES := 8 * 1024 * 1024 * 1024

  datatype Fault = MetadataTooLong | TensorTooLong | ShortHeader | BadMagic | BadVersion | SizeMismatch

  // ----- Little-endian numbers -----

  function Pow256(n: nat): (p: nat)
    ensures p > 0
  {
    if n == 0 then 1 else 256 * Pow256(n - 1)
  }

  /** The `width` low bytes of a number, lowest first. */
  function ToLe(value: nat, width: nat): (r: Bytes)
    ensures |r| == width
  {
    if width == 0 then [] else [value % 256] + ToLe(value / 256, width - 1)
  }

  function FromLe(b: Bytes): nat {
    if b == [] then 0 else b[0] + 256 * FromLe(b[1..])
  }

  lemma {:induction false} FromToLe(value: nat, width: nat)
    requires value < Pow256(width)
    ensures FromLe(ToLe(value, width)) == value
  {
    if width == 0 {
    } else {
      assert value / 256 < Pow256(width - 1);
      FromToLe(value / 256, width - 1);
      assert ToLe(value, width)[1..] == ToLe(value / 256, width - 1);
    }
  }

  lemma {:induction false} ToFromLe(b: Bytes)
    ensures ToLe(FromLe(b), |b|) == b && FromLe(b) < Pow256(|b|)
  {
    if b == [] {
    } else {
      ToFromLe(b[1..]);
      ByteAndRest(b[0], FromLe(b[1..]));
      assert b == [b[0]] + b[1..];
    }
  }

  lemma ByteAndRest(x: Byte, rest: nat)
    ensures (x + 256 * rest) % 256 == x && (x + 256 * rest) / 256 == rest
  {
  }

  lemma {:induction false} FromLeSnoc(b: Bytes, x: Byte)
    ensures FromLe(b + [x]) == FromLe(b) + x * Pow256(|b|)
  {
    if b == [] {
      assert [x][1..] == [];
    } else {
      assert (b + [x])[1..] == b[1..] + [x];
      FromLeSnoc(b[1..], x);
      assert 256 * (x * Pow256(|b| - 1)) == x * Pow256(|b|);
    }
  }

  lemma ToLeSnoc(value: nat, width: nat)
    ensures ToLe(value, width + 1) == ToLe(value, width) + [value / Pow256(width) % 256]
  {
    if width > 0 {
      ToLeSnoc(value / 256, width - 1);
      DivDiv(value, Pow256(width - 1));
    } else {
      assert ToLe(value / 256, 0) == [];
    }
  }

  lemma DivDiv(a: nat, m: nat)
    requires m > 0
    ensures 256 * m > 0 && a / 256 / m == a / (256 * m)
  {
    var q, r := a / (256 * m), a % (256 * m);
    assert a == 256 * (m * q) + r && r / 256 < m;
    assert a / 256 == m * q + r / 256;
    QuotientIs(a / 256, m, q, r / 256);
  }

  lemma Above(m: nat, q: int, p: int)
    requires q < p
    ensures m * q + m <= m * p
  {
    assert m * p == m * q + m + m * (p - q - 1);
  }

  lemma QuotientIs(a: nat, m: nat, q: nat, r: nat)
    requires a == m * q + r && r < m
    ensures a / m == q
  {
    var p, s := a / m, a % m;
    assert a == m * p + s && s < m;
    if q < p {
      Above(m, q, p);
    } else if p < q {
      Above(m, p, q);
    }
  }

  lemma Powers()
    ensures Pow256(4) == 0x1_0000_0000 && Pow256(8) == 0x1_0000_0000_0000_0000
  {
    assert Pow256(4) == 256 * (256 * (256 * (256 * Pow256(0))));
    assert Pow256(8) == 256 * (256 * (256 * (256 * Pow256(4))));
  }

  /** `append_u32_le` and `append_u64_le`: one byte a turn onto the output. */
  method AppendLe(out: Bytes, value: nat, width: nat) returns (r: Bytes)
    ensures r == out + ToLe(value, width)
  {
    r := out;
    var scale: nat := 1;
    for i := 0 to width
      invariant r == out + ToLe(value, i) && scale == Pow256(i)
    {
      ToLeSnoc(value, i);
      r := r + [value / scale % 256];
      scale := 256 * scale;
    }
  }

  /** `read_u32_le` and `read_u64_le`: accumulate the bytes at their weights. */
  method ReadLe(data: Bytes, at: nat, width: nat) returns (value: nat)
    requires at + width <= |data|
    ensures value == FromLe(data[at..at + width])
  {
    value := 0;
    var scale: nat := 1;
    for i := 0 to width
      invariant value == FromLe(data[at..at + i]) && scale == Pow256(i)
    {
      FromLeSnoc(data[at..at + i], data[at + i]);
      assert data[at..at + i + 1] == data[at..at + i] + [data[at + i]];
      value := value + data[at + i] * scale;
      scale := 256 * scale;
    }
  }

  // ----- Frames -----

  predicate InLimits(f: Frame) {
    |f.metadata| <= MAX_METADATA_BYTES && |f.tensor| <= MAX_TENSOR_BYTES
  }

  /** The bytes of a frame. */
  function Layout(f: Frame): Bytes {
    MAGIC + ToLe(VERSION, 4) + ToLe(|f.metadata|, 4) + ToLe(|f.tensor|, 8) + f.metadata + f.tensor
  }

  method EncodeFrame(f: Frame) returns (r: Result<Bytes, Fault>)
    ensures if InLimits(f) then r == Ok(Layout(f))
            else r == Err(if |f.metadata| > MAX_METADATA_BYTES then MetadataTooLong else TensorTooLong)
  {
    if |f.metadata| > MAX_METADATA_BYTES {
      return Err(MetadataTooLong);
    }
    if |f.tensor| > MAX_TENSOR_BYTES {
      return Err(TensorTooLong);
    }
    var out := MAGIC;
    out := AppendLe(out, VERSION, 4);
    out := AppendLe(out, |f.metadata|, 4);
    out := AppendLe(out, |f.tensor|, 8);
    out := out + f.metadata;
    out := out + f.tensor;
    r := Ok(out);
  }

  /** Decoding succeeds exactly on the bytes of an in-limit frame, and returns that frame. */
  method DecodeFrame(data: Bytes) returns (r: Result<Frame, Fault>)
    ensures r.Ok? ==> InLimits(r.value) && data == Layout(r.value)
    ensures r.Err? ==> forall f :: InLimits(f) ==> data != Layout(f)
  {
    if |data| < HEADER_BYTES {
      return Err(ShortHeader);
    }
    forall f | InLimits(f) && data == Layout(f)
      ensures HeaderOf(data, f)
    {
      LayoutHeader(f);
    }
    if data[..4] != MAGIC {
      return Err(BadMagic);
    }
    var version := ReadLe(data, 4, 4);
    if version != VERSION {
      return Err(BadVersion);
    }
    var metadataLength := ReadLe(data, 8, 4);
    var tensorLength := ReadLe(data, 12, 8);
    if metadataLength > MAX_METADATA_BYTES {
      return Err(MetadataTooLong);
    }
    if tensorLength > MAX_TENSOR_BYTES {
      return Err(TensorTooLong);
    }
    if HEADER_BYTES + metadataLength + tensorLength != |data| {
      return Err(SizeMismatch);
    }
    var f := Frame(data[20..20 + metadataLength], data[20 + metadataLength..]);
    HeaderIsLayout(data, f);
    r := Ok(f);
  }

  /** What the header of a frame's bytes says. */
  ghost predicate HeaderOf(data: Bytes, f: Frame) {
    && |data| == HEADER_BYTES + |f.metadata| + |f.tensor|
    && data[..4] == MAGIC && FromLe(data[4..8]) == VERSION
    && FromLe(data[8..12]) == |f.metadata| && FromLe(data[12..20]) == |f.tensor|
  }

  lemma LayoutHeader(f: Frame)
    requires InLimits(f)
    ensures HeaderOf(Layout(f), f)
    ensures Layout(f)[20..20 + |f.metadata|] == f.metadata && Layout(f)[20 + |f.metadata|..] == f.tensor
  {
    Powers();
    FromToLe(VERSION, 4);
    FromToLe(|f.metadata|, 4);
    FromToLe(|f.tensor|, 8);
    Slices(ToLe(VERSION, 4), ToLe(|f.metadata|, 4), ToLe(|f.tensor|, 8), f.metadata, f.tensor);
    hide ToLe, FromLe, Pow256;
  }

  lemma Slices(v: Bytes, m: Bytes, t: Bytes, metadata: Bytes, tensor: Bytes)
    requires |v| == 4 && |m| == 4 && |t| == 8
    ensures var data := MAGIC + v + m + t + metadata + tensor;
      && |data| == 20 + |metadata| + |tensor|
      && data[..4] == MAGIC && data[4..8] == v && data[8..12] == m && data[12..20] == t
      && data[20..20 + |metadata|] == metadata && data[20 + |metadata|..] == tensor
  {
  }

  lemma HeaderIsLayout(data: Bytes, f: Frame)
    requires HeaderOf(data, f)
    requires data[20..20 + |f.metadata|] == f.metadata && data[20 + |f.metadata|..] == f.tensor
    ensures data == Layout(f)
  {
    ToFromLe(data[4..8]);
    ToFromLe(data[8..12]);
    ToFromLe(data[12..20]);
    hide ToLe, FromLe, Pow256;
    assert data == data[..4] + data[4..8] + data[8..12] + data[12..20] + data[20..20 + |f.metadata|] + data[20 + |f.metadata|..];
  }

  lemma {:induction false} ToLeDigits(value: nat, width: nat, i: nat)
    requires i < width
    ensures ToLe(value, width)[i] == value / Pow256(i) % 256
    decreases width
  {
    if i + 1 == width {
      ToLeSnoc(value, i);
    } else {
      ToLeSnoc(value, width - 1);
      ToLeDigits(value, width - 1, i);
    }
  }

  /** The bytes on the wire, one by one: D L I 2, version 2, the two lengths with their lowest
      bytes first, and the two parts, of at most 16 MiB and 8 GiB. */
  lemma LayoutBytes(f: Frame)
    ensures InLimits(f) <==> |f.metadata| <= 16_777_216 && |f.tensor| <= 8_589_934_592
    ensures var b := Layout(f);
      && |b| == 20 + |f.metadata| + |f.tensor|
      && b[..8] == [68, 76, 73, 50, 2, 0, 0, 0]
      && (forall i :: 0 <= i < 4 ==> b[8 + i] == |f.metadata| / Pow256(i) % 256)
      && (forall i :: 0 <= i < 8 ==> b[12 + i] == |f.tensor| / Pow256(i) % 256)
      && (forall i :: 0 <= i < |f.metadata| ==> b[20 + i] == f.metadata[i])
      && (forall i :: 0 <= i < |f.tensor| ==> b[20 + |f.metadata| + i] == f.tensor[i])
  {
    var v, m, t := ToLe(VERSION, 4), ToLe(|f.metadata|, 4), ToLe(|f.tensor|, 8);
    Slices(v, m, t, f.metadata, f.tensor);
    VersionBytes();
    hide ToLe, Pow256;
    var b := Layout(f);
    assert b[..8] == b[..4] + b[4..8];
    forall i | 0 <= i < 4 ensures b[8 + i] == |f.metadata| / Pow256(i) % 256 {
      ToLeDigits(|f.metadata|, 4, i);
      assert b[8..12][i] == b[8 + i];
    }
    forall i | 0 <= i < 8 ensures b[12 + i] == |f.tensor| / Pow256(i) % 256 {
      ToLeDigits(|f.tensor|, 8, i);
      assert b[12..20][i] == b[12 + i];
    }
    forall i | 0 <= i < |f.metadata| ensures b[20 + i] == f.metadata[i] {
      assert b[20..20 + |f.metadata|][i] == b[20 + i];
    }
    forall i | 0 <= i < |f.tensor| ensures b[20 + |f.metadata| + i] == f.tensor[i] {
      assert b[20 + |f.metadata|..][i] == b[20 + |f.metadata| + i];
    }
  }

  lemma VersionBytes()
    ensures ToLe(VERSION, 4) == [2, 0, 0, 0] && MAGIC == [68, 76, 73, 50]
  {
    assert ToLe(2, 4) == [2] + ToLe(0, 3);
    assert ToLe(0, 3) == [0] + ToLe(0, 2);
    assert ToLe(0, 2) == [0] + ToLe(0, 1);
    assert ToLe(0, 1) == [0] + ToLe(0, 0);
  }

  /** Two in-limit frames with the same bytes are the same frame: with what `EncodeFrame`
      and `DecodeFrame` ensure, framing is a bijection between in-limit frames and the
      byte strings that decode. */
  lemma LayoutInjective(f: Frame, g: Frame)
    requires InLimits(f) && InLimits(g) && Layout(f) == Layout(g)
    ensures f == g
  {
    LayoutHeader(f);
    LayoutHeader(g);
  }

  /** Decoding an encoded frame gives it back, and encoding a decoded one gives its bytes back. */
  method RoundTrip(f: Frame, data: Bytes) returns (back: Result<Frame, Fault>, again: Result<Bytes, Fault>)
    requires InLimits(f)
    ensures back == Ok(f)
    ensures again.Ok? ==> again.value == data
    ensures (exists g :: InLimits(g) && data == Layout(g)) <==> again.Ok?
  {
    var encoded := EncodeFrame(f);
    back := DecodeFrame(encoded.value);
    assert InLimits(f) && encoded.value == Layout(f);
    LayoutInjective(f, back.value);
    var decoded := DecodeFrame(data);
    if decoded.Err? {
      return back, Err(decoded.error);
    }
    again := EncodeFrame(decoded.value);
  }
}
