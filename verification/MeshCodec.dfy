/**
 The pair of mesh converters: `obj2binobj.py` reads a Wavefront text and writes the compact
 binary, `binobj2obj.py` reads the binary and writes the text back.

 A float is an opaque 32-bit token; an input line is a list of already split fields.
 */
module MeshFormat {
  type Byte = b: int | 0 <= b < 0x100
  type Float = f: int | 0 <= f < 0x1_0000_0000
  type Int32 = i: int | -0x8000_0000 <= i < 0x8000_0000

  datatype Corner = Corner(pos: int, uv: int, norm: int)

  datatype Mesh = Mesh(positions: seq<Float>, uvs: seq<Float>, normals: seq<Float>, corners: seq<Corner>)

  datatype Error = StructError | IndexError | TrailingBytes

  datatype Result<+T> = Ok(value: T) | Err(error: Error) {
    predicate IsFailure() { Err? }

    function PropagateFailure<U>(): Result<U>
      requires Err?
    {
      Err(error)
    }

    function Extract(): T
      requires Ok?
    {
      value
    }
  }

  // ---- Big-endian 32-bit words. ----

  function PackWord(u: Float): (b: seq<Byte>)
    ensures |b| == 4
  {
    [u / 0x100_0000, u / 0x1_0000 % 0x100, u / 0x100 % 0x100, u % 0x100]
  }

  function UnpackWord(b: seq<Byte>): Float
    requires |b| == 4
  {
    Join(b[0], b[1], b[2], b[3])
  }

  function Join(b0: int, b1: int, b2: int, b3: int): int {
    0x100_0000 * b0 + 0x1_0000 * b1 + 0x100 * b2 + b3
  }

  lemma PackUnpackWord(b: seq<Byte>)
    requires |b| == 4
    ensures PackWord(UnpackWord(b)) == b
  {
    SplitJoin(b[0], b[1], b[2], b[3]);
  }

  lemma SplitJoin(b0: int, b1: int, b2: int, b3: int)
    requires 0 <= b0 < 0x100 && 0 <= b1 < 0x100 && 0 <= b2 < 0x100 && 0 <= b3 < 0x100
    ensures var u := Join(b0, b1, b2, b3);
            u / 0x100_0000 == b0 && u / 0x1_0000 % 0x100 == b1 && u / 0x100 % 0x100 == b2 && u % 0x100 == b3
  {
    var x1 := 0x100 * b0 + b1;
    var x2 := 0x100 * x1 + b2;
    var u := 0x100 * x2 + b3;
    assert u / 0x100 == x2 && u % 0x100 == b3;
    assert x2 / 0x100 == x1 && x2 % 0x100 == b2;
    assert x1 / 0x100 == b0 && x1 % 0x100 == b1;
    assert u / 0x1_0000 == x1 && u / 0x100_0000 == b0;
  }

  lemma UnpackPackWord(u: Float)
    ensures UnpackWord(PackWord(u)) == u
  {
    var u1, u2, u3 := u / 0x100, u / 0x1_0000, u / 0x100_0000;
    assert u2 == u1 / 0x100 && u3 == u2 / 0x100;
  }

  function PackInt(i: Int32): (b: seq<Byte>)
    ensures |b| == 4
  {
    PackWord(if i < 0 then i + 0x1_0000_0000 else i)
  }

  function UnpackInt(b: seq<Byte>): Int32
    requires |b| == 4
  {
    var u := UnpackWord(b);
    if u < 0x8000_0000 then u else u - 0x1_0000_0000
  }

  lemma IntRoundTrip(i: Int32)
    ensures UnpackInt(PackInt(i)) == i
  {
    hide PackWord, UnpackWord;
    UnpackPackWord(if i < 0 then i + 0x1_0000_0000 else i);
  }

  lemma IntRoundTripBytes(b: seq<Byte>)
    requires |b| == 4
    ensures PackInt(UnpackInt(b)) == b
  {
    hide PackWord, UnpackWord;
    PackUnpackWord(b);
  }

  // ---- The binary layout. ----

  function PackFloats(fs: seq<Float>): (b: seq<Byte>)
    ensures |b| == 4 * |fs|
  {
    if fs == [] then [] else PackWord(fs[0]) + PackFloats(fs[1..])
  }

  predicate InRange(c: Corner) {
    && -0x8000_0000 <= c.pos < 0x8000_0000
    && -0x8000_0000 <= c.uv < 0x8000_0000
    && -0x8000_0000 <= c.norm < 0x8000_0000
  }

  type PackableCorner = c: Corner | InRange(c) witness Corner(0, 0, 0)

  function PackCorner(c: Corner): (b: seq<Byte>)
    requires InRange(c)
    ensures |b| == 12
  {
    PackInt(c.pos) + PackInt(c.uv) + PackInt(c.norm)
  }

  function PackCorners(cs: seq<Corner>): (b: seq<Byte>)
    requires forall c | c in cs :: InRange(c)
    ensures |b| == 12 * |cs|
  {
    if cs == [] then [] else PackCorner(cs[0]) + PackCorners(cs[1..])
  }

  /** `struct.pack` accepts all counts and indices of the mesh. */
  predicate Packable(m: Mesh) {
    && |m.positions| < 0x8000_0000 && |m.uvs| < 0x8000_0000
    && |m.normals| < 0x8000_0000 && |m.corners| < 0x8000_0000
    && forall c | c in m.corners :: InRange(c)
  }

  function Section(fs: seq<Float>): seq<Byte>
    requires |fs| < 0x8000_0000
  {
    PackInt(|fs|) + PackFloats(fs)
  }

  function Encode(m: Mesh): seq<Byte>
    requires Packable(m)
  {
    Section(m.positions) + Section(m.uvs) + Section(m.normals)
    + PackInt(|m.corners|) + PackCorners(m.corners)
  }

  /** `struct.unpack_from('>i', data, offset)`. */
  function IntAt(data: seq<Byte>, offset: nat): Result<Int32> {
    if offset + 4 <= |data| then Ok(UnpackInt(data[offset..offset + 4])) else Err(StructError)
  }

  function UnpackFloats(data: seq<Byte>): (fs: seq<Float>)
    requires |data| % 4 == 0
    ensures 4 * |fs| == |data|
  {
    if data == [] then [] else [UnpackWord(data[..4])] + UnpackFloats(data[4..])
  }

  /** `struct.unpack_from('>%df' % count, data, offset)`; a negative count is no format. */
  function FloatsAt(data: seq<Byte>, offset: nat, count: int): Result<seq<Float>> {
    if 0 <= count && offset + 4 * count <= |data| then Ok(UnpackFloats(data[offset..offset + 4 * count]))
    else Err(StructError)
  }

  function UnpackCorner(b: seq<Byte>): PackableCorner
    requires |b| == 12
  {
    Corner(UnpackInt(b[..4]), UnpackInt(b[4..8]), UnpackInt(b[8..]))
  }

  function UnpackCorners(data: seq<Byte>): (cs: seq<PackableCorner>)
    requires |data| % 12 == 0
    ensures 12 * |cs| == |data|
  {
    hide InRange, UnpackCorner;
    if data == [] then []
    else
      assert |data| == 12 + |data[12..]| && |data[12..]| % 12 == 0;
      [UnpackCorner(data[..12])] + UnpackCorners(data[12..])
  }

  /** A counted run of floats, and the offset behind it. */
  function SectionAt(data: seq<Byte>, offset: nat): (r: Result<(seq<Float>, nat)>)
    ensures r.Ok? ==> r.value.1 == offset + 4 + 4 * |r.value.0| <= |data|
  {
    var count :- IntAt(data, offset);
    var fs :- FloatsAt(data, offset + 4, count);
    Ok((fs, offset + 4 + 4 * count))
  }

  /** The corners must fill the rest of the file; a negative count leaves bytes behind. */
  function CornersAt(data: seq<Byte>, offset: nat, count: int): Result<seq<Corner>>
    requires offset <= |data|
  {
    if offset + 12 * count > |data| then Err(StructError)
    else if offset + 12 * count != |data| then Err(TrailingBytes)
    else Ok(UnpackCorners(data[offset..]))
  }

  function Decode(data: seq<Byte>): Result<Mesh> {
    var (positions, o1) :- SectionAt(data, 0);
    var (uvs, o2) :- SectionAt(data, o1);
    var (normals, o3) :- SectionAt(data, o2);
    var count :- IntAt(data, o3);
    var corners :- CornersAt(data, o3 + 4, count);
    Ok(Mesh(positions, uvs, normals, corners))
  }

  // ---- Decoding and encoding are inverse to each other. ----

  lemma {:induction false} FloatsRoundTrip(fs: seq<Float>)
    ensures UnpackFloats(PackFloats(fs)) == fs
  {
    hide PackWord, UnpackWord;
    if fs != [] {
      var b := PackFloats(fs);
      UnpackPackWord(fs[0]);
      assert b[..4] == PackWord(fs[0]) && b[4..] == PackFloats(fs[1..]);
      FloatsRoundTrip(fs[1..]);
    }
  }

  lemma {:induction false} FloatsRoundTripBytes(data: seq<Byte>)
    requires |data| % 4 == 0
    ensures PackFloats(UnpackFloats(data)) == data
  {
    hide PackWord, UnpackWord;
    if data != [] {
      PackUnpackWord(data[..4]);
      FloatsRoundTripBytes(data[4..]);
      assert data == data[..4] + data[4..];
    }
  }

  lemma CornerRoundTrip(c: Corner)
    requires InRange(c)
    ensures UnpackCorner(PackCorner(c)) == c
  {
    hide PackInt, UnpackInt;
    var b := PackCorner(c);
    assert b[..4] == PackInt(c.pos) && b[4..8] == PackInt(c.uv) && b[8..] == PackInt(c.norm);
    IntRoundTrip(c.pos);
    IntRoundTrip(c.uv);
    IntRoundTrip(c.norm);
  }

  lemma CornerRoundTripBytes(b: seq<Byte>)
    requires |b| == 12
    ensures PackCorner(UnpackCorner(b)) == b
  {
    hide PackInt, UnpackInt;
    IntRoundTripBytes(b[..4]);
    IntRoundTripBytes(b[4..8]);
    IntRoundTripBytes(b[8..]);
    assert b == b[..4] + b[4..8] + b[8..];
  }

  lemma {:induction false} CornersRoundTrip(cs: seq<Corner>)
    requires forall c | c in cs :: InRange(c)
    ensures UnpackCorners(PackCorners(cs)) == cs
  {
    hide PackCorner, UnpackCorner;
    if cs != [] {
      var b := PackCorners(cs);
      assert b[..12] == PackCorner(cs[0]) && b[12..] == PackCorners(cs[1..]);
      CornerRoundTrip(cs[0]);
      CornersRoundTrip(cs[1..]);
    }
  }

  lemma {:induction false} CornersRoundTripBytes(data: seq<Byte>)
    requires |data| % 12 == 0
    ensures PackCorners(UnpackCorners(data)) == data
  {
    hide PackCorner, UnpackCorner;
    if data != [] {
      CornerRoundTripBytes(data[..12]);
      CornersRoundTripBytes(data[12..]);
      assert data == data[..12] + data[12..];
    }
  }

  lemma SectionRoundTrip(data: seq<Byte>, offset: nat, fs: seq<Float>)
    requires |fs| < 0x8000_0000
    requires offset + |Section(fs)| <= |data| && data[offset..offset + |Section(fs)|] == Section(fs)
    ensures SectionAt(data, offset) == Ok((fs, offset + |Section(fs)|))
  {
    hide PackInt, UnpackInt, PackFloats, UnpackFloats;
    var n := |fs|;
    assert data[offset..offset + 4] == Section(fs)[..4] == PackInt(n);
    IntRoundTrip(n);
    assert data[offset + 4..offset + 4 + 4 * n] == Section(fs)[4..] == PackFloats(fs);
    FloatsRoundTrip(fs);
  }

  lemma SectionRoundTripBytes(data: seq<Byte>, offset: nat)
    requires SectionAt(data, offset).Ok?
    ensures var (fs, end) := SectionAt(data, offset).value;
            |fs| < 0x8000_0000 && data[offset..end] == Section(fs)
  {
    hide PackInt, UnpackInt, PackFloats, UnpackFloats;
    var (fs, end) := SectionAt(data, offset).value;
    IntRoundTripBytes(data[offset..offset + 4]);
    FloatsRoundTripBytes(data[offset + 4..end]);
    assert data[offset..end] == data[offset..offset + 4] + data[offset + 4..end];
  }

  /** Decoding what the encoder wrote gives the same arrays. */
  lemma DecodeEncode(m: Mesh)
    requires Packable(m)
    ensures Decode(Encode(m)) == Ok(m)
  {
    hide PackInt, UnpackInt, Section, SectionAt, PackCorners, UnpackCorners;
    var data := Encode(m);
    var s1, s2, s3 := Section(m.positions), Section(m.uvs), Section(m.normals);
    var o1 := |s1|;
    var o2 := o1 + |s2|;
    var o3 := o2 + |s3|;
    assert data[0..o1] == s1 && data[o1..o2] == s2 && data[o2..o3] == s3;
    SectionRoundTrip(data, 0, m.positions);
    SectionRoundTrip(data, o1, m.uvs);
    SectionRoundTrip(data, o2, m.normals);
    assert data[o3..o3 + 4] == PackInt(|m.corners|) && data[o3 + 4..] == PackCorners(m.corners);
    IntRoundTrip(|m.corners|);
    CornersRoundTrip(m.corners);
  }

  /** Every accepted file is the encoding of the arrays read from it. */
  lemma EncodeDecode(data: seq<Byte>)
    requires Decode(data).Ok?
    ensures Packable(Decode(data).value) && Encode(Decode(data).value) == data
  {
    hide PackInt, UnpackInt, Section, SectionAt, PackCorners, UnpackCorners;
    var (positions, o1) := SectionAt(data, 0).value;
    var (uvs, o2) := SectionAt(data, o1).value;
    var (normals, o3) := SectionAt(data, o2).value;
    SectionRoundTripBytes(data, 0);
    SectionRoundTripBytes(data, o1);
    SectionRoundTripBytes(data, o2);
    IntRoundTripBytes(data[o3..o3 + 4]);
    CornersRoundTripBytes(data[o3 + 4..]);
    assert data == data[0..o1] + data[o1..o2] + data[o2..o3] + data[o3..o3 + 4] + data[o3 + 4..];
  }
}
