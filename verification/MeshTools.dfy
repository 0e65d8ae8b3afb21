/**
 The two mesh tools as programs: the reader and writer of the text form, the binary writer,
 and the binary reader with its moving offset.
 */
module MeshTools {
  import opened MeshFormat

  /** One field of a face vertex: the text between two slashes. */
  datatype Field = Empty | Number(n: int)

  /** Splitting a string gives at least one field. */
  type Fields = f: seq<Field> | |f| > 0 witness [Empty]

  /** A line by its tag; `Other` is blank, a comment or any other tag. */
  datatype Line =
    | Other
    | Vertex(args: seq<Float>)
    | TexCoord(args: seq<Float>)
    | Normal(args: seq<Float>)
    | Face(vertices: seq<Fields>)

  const NO_MESH := Mesh([], [], [], [])

  // ---- obj2binobj.py: the text is read line by line. ----

  function IndexOf(f: Field): int {
    if f.Number? then f.n - 1 else -1
  }

  function CornerOf(vertex: Fields): Corner {
    var fields := (vertex + [Empty, Empty])[..3];
    Corner(IndexOf(fields[0]), IndexOf(fields[1]), IndexOf(fields[2]))
  }

  function CornersOf(vertices: seq<Fields>): (face: seq<Corner>)
    ensures |face| == |vertices|
  {
    seq(|vertices|, i requires 0 <= i < |vertices| => CornerOf(vertices[i]))
  }

  /** Fields count from 1; an empty or missing one gives -1, and those after the third do not matter. */
  lemma CornerIs(vertex: Fields)
    ensures var c := CornerOf(vertex);
            && c.pos == (if vertex[0].Number? then vertex[0].n - 1 else -1)
            && c.uv == (if |vertex| > 1 && vertex[1].Number? then vertex[1].n - 1 else -1)
            && c.norm == (if |vertex| > 2 && vertex[2].Number? then vertex[2].n - 1 else -1)
  {}

  /** The triangle fan of a polygon: triangle t is made of the corners 0, t + 1 and t + 2. */
  function Fan(face: seq<Corner>): (cs: seq<Corner>)
    ensures |cs| == if |face| < 3 then 0 else 3 * (|face| - 2)
    ensures forall t | 0 <= t < |face| - 2 ::
              cs[3 * t] == face[0] && cs[3 * t + 1] == face[t + 1] && cs[3 * t + 2] == face[t + 2]
  {
    if |face| < 3 then []
    else Fan(face[..|face| - 1]) + [face[0], face[|face| - 2], face[|face| - 1]]
  }

  function ReadLine(m: Mesh, line: Line): Result<Mesh> {
    match line
    case Other => Ok(m)
    case Vertex(args) =>
      if |args| < 3 then Err(IndexError) else Ok(m.(positions := m.positions + args[..3]))
    case TexCoord(args) =>
      if |args| < 2 then Err(IndexError) else Ok(m.(uvs := m.uvs + args[..2]))
    case Normal(args) =>
      if |args| < 3 then Err(IndexError) else Ok(m.(normals := m.normals + args[..3]))
    case Face(vertices) =>
      Ok(m.(corners := m.corners + Fan(CornersOf(vertices))))
  }

  function ReadFrom(m: Mesh, lines: seq<Line>): Result<Mesh>
    decreases |lines|
  {
    if lines == [] then Ok(m)
    else
      var next :- ReadLine(m, lines[0]);
      ReadFrom(next, lines[1..])
  }

  method ReadFace(corners: seq<Corner>, vertices: seq<Fields>) returns (result: seq<Corner>)
    ensures result == corners + Fan(CornersOf(vertices))
  {
    var face := [];
    for v := 0 to |vertices|
      invariant face == CornersOf(vertices)[..v]
    {
      face := face + [CornerOf(vertices[v])];
    }
    assert face == CornersOf(vertices);
    result := corners;
    var i := 1;
    while i < |face| - 1
      invariant 1 <= i && (i < |face| - 1 ==> i + 1 <= |face|)
      invariant i <= |face| - 1 || |face| < 2
      invariant result == corners + Fan(face[..if |face| < i + 1 then |face| else i + 1])
    {
      result := result + [face[0], face[i], face[i + 1]];
      assert face[..i + 2][..i + 1] == face[..i + 1];
      i := i + 1;
    }
    assert face[..|face|] == face;
  }

  method ReadObj(lines: seq<Line>) returns (r: Result<Mesh>)
    ensures r == ReadFrom(NO_MESH, lines)
  {
    var positions, uvs, normals, corners := [], [], [], [];
    for i := 0 to |lines|
      invariant ReadFrom(NO_MESH, lines) == ReadFrom(Mesh(positions, uvs, normals, corners), lines[i..])
    {
      assert lines[i..][1..] == lines[i + 1..];
      match lines[i] {
        case Other =>
        case Vertex(args) =>
          if |args| < 3 {
            return Err(IndexError);
          }
          positions := positions + [args[0], args[1], args[2]];
          assert args[..3] == [args[0], args[1], args[2]];
        case TexCoord(args) =>
          if |args| < 2 {
            return Err(IndexError);
          }
          uvs := uvs + [args[0], args[1]];
          assert args[..2] == [args[0], args[1]];
        case Normal(args) =>
          if |args| < 3 {
            return Err(IndexError);
          }
          normals := normals + [args[0], args[1], args[2]];
          assert args[..3] == [args[0], args[1], args[2]];
        case Face(vertices) =>
          corners := ReadFace(corners, vertices);
      }
    }
    r := Ok(Mesh(positions, uvs, normals, corners));
  }

  // ---- obj2binobj.py: the binary is written. ----

  /** All or nothing: a count or an index outside 32 bits raises an error. */
  method WriteBinary(m: Mesh) returns (r: Result<seq<Byte>>)
    ensures r == if Packable(m) then Ok(Encode(m)) else Err(StructError)
  {
    hide PackInt, PackFloats;
    var n: int := 0x8000_0000;
    if |m.positions| >= n || |m.uvs| >= n || |m.normals| >= n || |m.corners| >= n {
      return Err(StructError);
    }
    var out := Section(m.positions) + Section(m.uvs) + Section(m.normals) + PackInt(|m.corners|);
    ghost var header := out;
    for i := 0 to |m.corners|
      invariant forall c | c in m.corners[..i] :: InRange(c)
      invariant out == header + PackCorners(m.corners[..i])
    {
      var c := m.corners[i];
      if !InRange(c) {
        return Err(StructError);
      }
      PackCornersStep(m.corners[..i], c);
      assert m.corners[..i + 1] == m.corners[..i] + [c];
      out := out + (PackInt(c.pos) + PackInt(c.uv) + PackInt(c.norm));
    }
    assert m.corners[..|m.corners|] == m.corners;
    r := Ok(out);
  }

  lemma {:induction false} PackCornersStep(cs: seq<Corner>, c: Corner)
    requires InRange(c) && forall d | d in cs :: InRange(d)
    ensures PackCorners(cs + [c]) == PackCorners(cs) + PackCorner(c)
  {
    hide PackCorner;
    if cs == [] {
      assert cs + [c] == [c] && [c][1..] == [];
    } else {
      assert (cs + [c])[1..] == cs[1..] + [c];
      PackCornersStep(cs[1..], c);
    }
  }

  // ---- binobj2obj.py: the binary is read with a moving offset. ----

  class Reader {
    const data: seq<Byte>
    var offset: int

    constructor (data: seq<Byte>)
      ensures this.data == data && offset == 0
    {
      this.data := data;
      offset := 0;
    }

    method ReadInt() returns (r: Result<Int32>)
      requires offset >= 0
      modifies this`offset
      ensures r == IntAt(data, old(offset))
      ensures offset == if r.Ok? then old(offset) + 4 else old(offset)
      ensures r.Ok? ==> offset <= |data|
    {
      if offset + 4 > |data| {
        return Err(StructError);
      }
      r := Ok(UnpackInt(data[offset..offset + 4]));
      offset := offset + 4;
    }

    method ReadFloats(count: int) returns (r: Result<seq<Float>>)
      requires 0 <= offset <= |data|
      modifies this`offset
      ensures r == FloatsAt(data, old(offset), count)
      ensures offset == if r.Ok? then old(offset) + 4 * |r.value| else old(offset)
      ensures 0 <= offset <= |data|
    {
      if count < 0 || offset + 4 * count > |data| {
        return Err(StructError);
      }
      r := Ok(UnpackFloats(data[offset..offset + 4 * count]));
      offset := offset + 4 * count;
    }

    method ReadSection() returns (r: Result<seq<Float>>)
      requires 0 <= offset <= |data|
      modifies this`offset
      ensures r.Ok? ==> SectionAt(data, old(offset)) == Ok((r.value, offset))
      ensures r.Err? ==> SectionAt(data, old(offset)) == Err(r.error)
      ensures 0 <= offset <= |data|
    {
      var count :- ReadInt();
      r := ReadFloats(count);
    }

    method ReadCorners(count: int) returns (r: Result<seq<Corner>>)
      requires 0 <= offset <= |data|
      modifies this`offset
      ensures r == CornersAt(data, old(offset), count)
    {
      hide UnpackCorner;
      var corners := [];
      var i := 0;
      while i < count
        invariant 0 <= i && (i <= count || i == 0)
        invariant offset == old(offset) && offset + 12 * i <= |data|
        invariant corners == UnpackCorners(data[offset..offset + 12 * i])
      {
        if offset + 12 * i + 12 > |data| {
          return Err(StructError);
        }
        var next := data[offset + 12 * i..offset + 12 * i + 12];
        UnpackCornersStep(data[offset..offset + 12 * i], next);
        assert data[offset..offset + 12 * (i + 1)] == data[offset..offset + 12 * i] + next;
        corners := corners + [UnpackCorner(next)];
        i := i + 1;
      }
      offset := offset + 12 * count;
      if offset != |data| {
        return Err(TrailingBytes);
      }
      assert data[old(offset)..old(offset) + 12 * i] == data[old(offset)..];
      r := Ok(corners);
    }

    method ReadMesh() returns (r: Result<Mesh>)
      requires offset == 0
      modifies this`offset
      ensures r == Decode(data)
    {
      hide IntAt, SectionAt, CornersAt;
      var positions :- ReadSection();
      var uvs :- ReadSection();
      var normals :- ReadSection();
      var cornerCount :- ReadInt();
      var corners :- ReadCorners(cornerCount);
      r := Ok(Mesh(positions, uvs, normals, corners));
    }
  }

  lemma {:induction false} UnpackCornersStep(d: seq<Byte>, b: seq<Byte>)
    requires |d| % 12 == 0 && |b| == 12
    ensures UnpackCorners(d + b) == UnpackCorners(d) + [UnpackCorner(b)]
  {
    hide UnpackCorner;
    if d == [] {
      assert d + b == b && b[..12] == b && b[12..] == [];
    } else {
      assert (d + b)[..12] == d[..12] && (d + b)[12..] == d[12..] + b;
      UnpackCornersStep(d[12..], b);
    }
  }

  // ---- binobj2obj.py: the text is written. ----

  function VertexLines(ps: seq<Float>): seq<Line> {
    if |ps| < 3 then [] else [Vertex(ps[..3])] + VertexLines(ps[3..])
  }

  function TexCoordLines(ts: seq<Float>): seq<Line> {
    if |ts| < 2 then [] else [TexCoord(ts[..2])] + TexCoordLines(ts[2..])
  }

  function NormalLines(ns: seq<Float>): seq<Line> {
    if |ns| < 3 then [] else [Normal(ns[..3])] + NormalLines(ns[3..])
  }

  /** `%d/%d/%d`: all three fields are always written, a missing index as 0. */
  function FieldsOf(c: Corner): Fields {
    [Number(c.pos + 1), Number(c.uv + 1), Number(c.norm + 1)]
  }

  function FaceLines(cs: seq<Corner>): seq<Line> {
    if |cs| < 3 then []
    else [Face([FieldsOf(cs[0]), FieldsOf(cs[1]), FieldsOf(cs[2])])] + FaceLines(cs[3..])
  }

  function ObjLines(m: Mesh): seq<Line> {
    [Other, Other] + VertexLines(m.positions) + TexCoordLines(m.uvs) + NormalLines(m.normals)
    + FaceLines(m.corners)
  }

  lemma VertexNext(ps: seq<Float>, i: nat)
    ensures 3 * i + 3 <= |ps| ==>
              VertexLines(ps[3 * i..])
              == [Vertex([ps[3 * i], ps[3 * i + 1], ps[3 * i + 2]])] + VertexLines(ps[3 * (i + 1)..])
    ensures 3 * i <= |ps| < 3 * i + 3 ==> VertexLines(ps[3 * i..]) == []
  {
    if 3 * i + 3 <= |ps| {
      assert ps[3 * i..][..3] == [ps[3 * i], ps[3 * i + 1], ps[3 * i + 2]];
      assert ps[3 * i..][3..] == ps[3 * (i + 1)..];
    }
  }

  lemma TexCoordNext(ts: seq<Float>, i: nat)
    ensures 2 * i + 2 <= |ts| ==>
              TexCoordLines(ts[2 * i..]) == [TexCoord([ts[2 * i], ts[2 * i + 1]])] + TexCoordLines(ts[2 * (i + 1)..])
    ensures 2 * i <= |ts| < 2 * i + 2 ==> TexCoordLines(ts[2 * i..]) == []
  {
    if 2 * i + 2 <= |ts| {
      assert ts[2 * i..][..2] == [ts[2 * i], ts[2 * i + 1]];
      assert ts[2 * i..][2..] == ts[2 * (i + 1)..];
    }
  }

  lemma NormalNext(ns: seq<Float>, i: nat)
    ensures 3 * i + 3 <= |ns| ==>
              NormalLines(ns[3 * i..])
              == [Normal([ns[3 * i], ns[3 * i + 1], ns[3 * i + 2]])] + NormalLines(ns[3 * (i + 1)..])
    ensures 3 * i <= |ns| < 3 * i + 3 ==> NormalLines(ns[3 * i..]) == []
  {
    if 3 * i + 3 <= |ns| {
      assert ns[3 * i..][..3] == [ns[3 * i], ns[3 * i + 1], ns[3 * i + 2]];
      assert ns[3 * i..][3..] == ns[3 * (i + 1)..];
    }
  }

  lemma FaceNext(cs: seq<Corner>, t: nat)
    ensures 3 * t + 3 <= |cs| ==>
              FaceLines(cs[3 * t..])
              == [Face([FieldsOf(cs[3 * t]), FieldsOf(cs[3 * t + 1]), FieldsOf(cs[3 * t + 2])])]
                 + FaceLines(cs[3 * (t + 1)..])
    ensures 3 * t <= |cs| < 3 * t + 3 ==> FaceLines(cs[3 * t..]) == []
  {
    if 3 * t + 3 <= |cs| {
      assert cs[3 * t..][3..] == cs[3 * (t + 1)..];
    }
  }

  method WriteObj(m: Mesh) returns (out: seq<Line>)
    ensures out == ObjLines(m)
  {
    hide VertexLines, TexCoordLines, NormalLines, FaceLines, FieldsOf;
    var p, u, n, c := m.positions, m.uvs, m.normals, m.corners;
    out := [Other, Other];
    ghost var before := out;
    assert p[0..] == p && u[0..] == u && n[0..] == n && c[0..] == c;
    for i := 0 to |p| / 3
      invariant out + VertexLines(p[3 * i..]) == before + VertexLines(p)
    {
      VertexNext(p, i);
      out := out + [Vertex([p[3 * i], p[3 * i + 1], p[3 * i + 2]])];
    }
    VertexNext(p, |p| / 3);
    assert out == before + VertexLines(p);
    before := out;
    for i := 0 to |u| / 2
      invariant out + TexCoordLines(u[2 * i..]) == before + TexCoordLines(u)
    {
      TexCoordNext(u, i);
      out := out + [TexCoord([u[2 * i], u[2 * i + 1]])];
    }
    TexCoordNext(u, |u| / 2);
    assert out == before + TexCoordLines(u);
    before := out;
    for i := 0 to |n| / 3
      invariant out + NormalLines(n[3 * i..]) == before + NormalLines(n)
    {
      NormalNext(n, i);
      out := out + [Normal([n[3 * i], n[3 * i + 1], n[3 * i + 2]])];
    }
    NormalNext(n, |n| / 3);
    assert out == before + NormalLines(n);
    before := out;
    for t := 0 to |c| / 3
      invariant out + FaceLines(c[3 * t..]) == before + FaceLines(c)
    {
      FaceNext(c, t);
      out := out + [Face([FieldsOf(c[3 * t]), FieldsOf(c[3 * t + 1]), FieldsOf(c[3 * t + 2])])];
    }
    FaceNext(c, |c| / 3);
    assert out == before + FaceLines(c);
  }

  // ---- The round trip through the text. ----

  /** What is left of the arrays when incomplete triples, pairs and triangles are dropped. */
  function Whole(m: Mesh): Mesh {
    Mesh(WholeGroups(m.positions, 3), WholeGroups(m.uvs, 2), WholeGroups(m.normals, 3), WholeGroups(m.corners, 3))
  }

  function WholeGroups<T>(s: seq<T>, k: nat): seq<T>
    requires k > 0
  {
    s[..|s| / k * k]
  }

  lemma FirstGroup<T>(s: seq<T>, k: nat)
    requires 2 <= k <= 3
    ensures |s| < k ==> WholeGroups(s, k) == []
    ensures |s| >= k ==> WholeGroups(s, k) == s[..k] + WholeGroups(s[k..], k)
  {}

  lemma ReadStep(m: Mesh, line: Line, lines: seq<Line>)
    requires ReadLine(m, line).Ok?
    ensures ReadFrom(m, [line] + lines) == ReadFrom(ReadLine(m, line).value, lines)
  {}

  predicate IsWhole(m: Mesh) {
    |m.positions| % 3 == 0 && |m.uvs| % 2 == 0 && |m.normals| % 3 == 0 && |m.corners| % 3 == 0
  }

  lemma {:induction false} ReadVertexLines(m: Mesh, ps: seq<Float>, rest: seq<Line>)
    ensures ReadFrom(m, VertexLines(ps) + rest)
         == ReadFrom(m.(positions := m.positions + WholeGroups(ps, 3)), rest)
    decreases |ps|
  {
    hide ReadFrom, WholeGroups;
    FirstGroup(ps, 3);
    if |ps| < 3 {
      assert [] + rest == rest && m.positions + [] == m.positions;
    } else {
      var next := m.(positions := m.positions + ps[..3]);
      assert ps[..3][..3] == ps[..3];
      assert VertexLines(ps) + rest == [Vertex(ps[..3])] + (VertexLines(ps[3..]) + rest);
      ReadStep(m, Vertex(ps[..3]), VertexLines(ps[3..]) + rest);
      ReadVertexLines(next, ps[3..], rest);
      assert next.positions + WholeGroups(ps[3..], 3) == m.positions + WholeGroups(ps, 3);
    }
  }

  lemma {:induction false} ReadTexCoordLines(m: Mesh, ts: seq<Float>, rest: seq<Line>)
    ensures ReadFrom(m, TexCoordLines(ts) + rest)
         == ReadFrom(m.(uvs := m.uvs + WholeGroups(ts, 2)), rest)
    decreases |ts|
  {
    hide ReadFrom, WholeGroups;
    FirstGroup(ts, 2);
    if |ts| < 2 {
      assert [] + rest == rest && m.uvs + [] == m.uvs;
    } else {
      var next := m.(uvs := m.uvs + ts[..2]);
      assert ts[..2][..2] == ts[..2];
      assert TexCoordLines(ts) + rest == [TexCoord(ts[..2])] + (TexCoordLines(ts[2..]) + rest);
      ReadStep(m, TexCoord(ts[..2]), TexCoordLines(ts[2..]) + rest);
      ReadTexCoordLines(next, ts[2..], rest);
      assert next.uvs + WholeGroups(ts[2..], 2) == m.uvs + WholeGroups(ts, 2);
    }
  }

  lemma {:induction false} ReadNormalLines(m: Mesh, ns: seq<Float>, rest: seq<Line>)
    ensures ReadFrom(m, NormalLines(ns) + rest)
         == ReadFrom(m.(normals := m.normals + WholeGroups(ns, 3)), rest)
    decreases |ns|
  {
    hide ReadFrom, WholeGroups;
    FirstGroup(ns, 3);
    if |ns| < 3 {
      assert [] + rest == rest && m.normals + [] == m.normals;
    } else {
      var next := m.(normals := m.normals + ns[..3]);
      assert ns[..3][..3] == ns[..3];
      assert NormalLines(ns) + rest == [Normal(ns[..3])] + (NormalLines(ns[3..]) + rest);
      ReadStep(m, Normal(ns[..3]), NormalLines(ns[3..]) + rest);
      ReadNormalLines(next, ns[3..], rest);
      assert next.normals + WholeGroups(ns[3..], 3) == m.normals + WholeGroups(ns, 3);
    }
  }

  lemma TriangleThroughText(a: Corner, b: Corner, c: Corner)
    ensures Fan(CornersOf([FieldsOf(a), FieldsOf(b), FieldsOf(c)])) == [a, b, c]
  {}

  lemma {:induction false} ReadFaceLines(m: Mesh, cs: seq<Corner>)
    ensures ReadFrom(m, FaceLines(cs)) == Ok(m.(corners := m.corners + WholeGroups(cs, 3)))
    decreases |cs|
  {
    hide WholeGroups, Fan, CornersOf, FieldsOf;
    FirstGroup(cs, 3);
    if |cs| < 3 {
      assert m.corners + [] == m.corners;
    } else {
      var face := Face([FieldsOf(cs[0]), FieldsOf(cs[1]), FieldsOf(cs[2])]);
      var next := m.(corners := m.corners + cs[..3]);
      assert cs[..3] == [cs[0], cs[1], cs[2]];
      TriangleThroughText(cs[0], cs[1], cs[2]);
      ReadStep(m, face, FaceLines(cs[3..]));
      ReadFaceLines(next, cs[3..]);
      assert next.corners + WholeGroups(cs[3..], 3) == m.corners + WholeGroups(cs, 3);
    }
  }

  /** Reading what was written gives the whole triples, pairs and triangles of the mesh. */
  lemma ReadWritten(m: Mesh)
    ensures ReadFrom(NO_MESH, ObjLines(m)) == Ok(Whole(m))
  {
    hide VertexLines, TexCoordLines, NormalLines, FaceLines;
    var v, t, n, f := VertexLines(m.positions), TexCoordLines(m.uvs), NormalLines(m.normals), FaceLines(m.corners);
    var w := Whole(m);
    assert ObjLines(m) == [Other, Other] + (v + (t + (n + f)));
    SkipHeader(v + (t + (n + f)));
    ReadVertexLines(NO_MESH, m.positions, t + (n + f));
    ReadTexCoordLines(Mesh(w.positions, [], [], []), m.uvs, n + f);
    ReadNormalLines(Mesh(w.positions, w.uvs, [], []), m.normals, f);
    ReadFaceLines(Mesh(w.positions, w.uvs, w.normals, []), m.corners);
    assert [] + w.positions == w.positions && [] + w.uvs == w.uvs;
    assert [] + w.normals == w.normals && [] + w.corners == w.corners;
  }

  lemma SkipHeader(rest: seq<Line>)
    ensures ReadFrom(NO_MESH, [Other, Other] + rest) == ReadFrom(NO_MESH, rest)
  {}

  /** `obj2binobj.py` on the lines of a file. */
  function Compile(lines: seq<Line>): Result<seq<Byte>> {
    var m :- ReadFrom(NO_MESH, lines);
    if Packable(m) then Ok(Encode(m)) else Err(StructError)
  }

  /** `binobj2obj.py` on the bytes of a file. */
  function Decompile(data: seq<Byte>): Result<seq<Line>> {
    var m :- Decode(data);
    Ok(ObjLines(m))
  }

  /**
   The claimed byte-identical round trip: decompiling an accepted file and compiling the text
   gives the same bytes exactly when the file holds whole triples, pairs and triangles.
   */
  lemma RoundTrip(data: seq<Byte>)
    requires Decode(data).Ok?
    ensures Compile(Decompile(data).value).Ok?
    ensures Compile(Decompile(data).value) == Ok(data) <==> IsWhole(Decode(data).value)
  {
    hide Encode, Decode, ObjLines, ReadFrom, InRange;
    var m := Decode(data).value;
    var w := Whole(m);
    EncodeDecode(data);
    ReadWritten(m);
    assert forall c | c in w.corners :: c in m.corners;
    DecodeEncode(w);
    assert IsWhole(m) <==> w == m;
  }

  /** A file that does not keep its bytes: a single number where the positions should come in threes. */
  lemma PartialTriple()
    ensures var data := Encode(Mesh([0], [], [], []));
            && Decode(data).Ok? && !IsWhole(Decode(data).value)
            && Compile(Decompile(data).value) != Ok(data)
  {
    hide Encode, Decode, ObjLines, ReadFrom;
    var m := Mesh([0], [], [], []);
    DecodeEncode(m);
    RoundTrip(Encode(m));
  }

  // ---- The compiler only produces whole meshes, so a second trip changes nothing. ----

  lemma {:induction false} CompiledIsWhole(m: Mesh, lines: seq<Line>)
    requires IsWhole(m) && ReadFrom(m, lines).Ok?
    ensures IsWhole(ReadFrom(m, lines).value)
    decreases |lines|
  {
    hide Fan;
    if lines != [] {
      CompiledIsWhole(ReadLine(m, lines[0]).value, lines[1..]);
    }
  }

  /** Compile, decompile, compile is compile, for every text with polygons of any size. */
  lemma CompileIsStable(lines: seq<Line>)
    requires Compile(lines).Ok?
    ensures Decompile(Compile(lines).value).Ok?
    ensures Compile(Decompile(Compile(lines).value).value) == Compile(lines)
  {
    hide Encode, Decode, ObjLines, ReadFrom;
    var m := ReadFrom(NO_MESH, lines).value;
    CompiledIsWhole(NO_MESH, lines);
    DecodeEncode(m);
    RoundTrip(Encode(m));
  }
}
