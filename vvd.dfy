/** The VVD reader: the vertex data of a model.  A header with the magic
    number "IDSV", the vertex count of each LOD, then three tables (fixups,
    vertices, tangents) at offsets measured from the position the reader
    started at.  The
    vertex and tangent tables both hold as many records as LOD 0 has vertices. */
module Vvd {
  import opened Bytes
  import opened Wrappers
  import opened Cursors
  import opened Util
  import opened Consts

  /** The id field of a VVD header: the bytes "IDSV" read as a little-endian u32. */
  const VvdId: int := 0x5653_4449

  // ---- formats ----

  const VvdHeader: seq<Code> := [UInt32, UInt32, UInt32, Int32]          // '=IIIi'
  const TableHeader: seq<Code> := [Int32, Int32, Int32, Int32]           // '=iiii'
  const FixupFormat: seq<Code> := [Int32, Int32, Int32]                  // '=iii'
  /** '=' + 'f' * MAX + 'c' * MAX + 'B' */
  const BoneWeightFormat: seq<Code> :=
    Repeat(Float32, MaxNumBonesPerVert) + Repeat(Char, MaxNumBonesPerVert) + [UInt8]
  const Vec3Format: seq<Code> := [Float32, Float32, Float32]             // '=fff'
  const Vec2Format: seq<Code> := [Float32, Float32]                      // '=ff'
  const TangentFormat: seq<Code> := [Float32, Float32, Float32, Float32] // '=ffff'

  // ---- sizes in bytes ----

  const VvdHeaderSize: nat := 16
  const LodCountsSize: nat := 32
  const TableHeaderSize: nat := 16
  const FixupSize: nat := 12
  const BoneWeightSize: nat := 16
  const Vec3Size: nat := 12
  const Vec2Size: nat := 8
  const TangentSize: nat := 16
  /** One VVDVertex: its bone weights, position, normal and texture coordinate back to back. */
  const VertexSize: nat := 48

  /** The sizes above are the packed sizes of the formats; the table header
      follows the header and the MAX_NUM_LODS per-LOD counts. */
  lemma FormatSizes()
    ensures FormatSize(VvdHeader) == VvdHeaderSize
    ensures LodCountsSize == MaxNumLods * CodeSize(Int32)
    ensures FormatSize(TableHeader) == TableHeaderSize
    ensures FormatSize(FixupFormat) == FixupSize
    ensures FormatSize(BoneWeightFormat) == BoneWeightSize
    ensures FormatSize(Vec3Format) == Vec3Size
    ensures FormatSize(Vec2Format) == Vec2Size
    ensures FormatSize(TangentFormat) == TangentSize
    ensures VertexSize == BoneWeightSize + 2 * Vec3Size + Vec2Size
  {
    HeaderSizes();
    BoneWeightFormatSize();
    VectorSizes();
  }

  lemma HeaderSizes()
    ensures FormatSize(VvdHeader) == VvdHeaderSize
    ensures FormatSize(TableHeader) == TableHeaderSize
    ensures FormatSize(FixupFormat) == FixupSize
    ensures |VvdHeader| == 4 && |TableHeader| == 4 && |FixupFormat| == 3
  {
    FormatSizeByPosition(VvdHeader);
    assert |VvdHeader| == 4;
    FormatSizeByPosition(TableHeader);
    assert |TableHeader| == 4;
    FormatSizeByPosition(FixupFormat);
    assert |FixupFormat| == 3;
  }

  lemma VectorSizes()
    ensures FormatSize(Vec3Format) == Vec3Size
    ensures FormatSize(Vec2Format) == Vec2Size
    ensures FormatSize(TangentFormat) == TangentSize
    ensures |Vec3Format| == 3 && |Vec2Format| == 2 && |TangentFormat| == 4
  {
    FormatSizeByPosition(Vec3Format);
    assert |Vec3Format| == 3;
    FormatSizeByPosition(Vec2Format);
    assert |Vec2Format| == 2;
    FormatSizeByPosition(TangentFormat);
    assert |TangentFormat| == 4;
  }

  /** A bone-weight record is MAX floats, MAX one-byte bone ids and a count byte. */
  lemma BoneWeightFormatSize()
    ensures |BoneWeightFormat| == 2 * MaxNumBonesPerVert + 1
    ensures FormatSize(BoneWeightFormat) == BoneWeightSize
  {
    var weights, bones := Repeat(Float32, MaxNumBonesPerVert), Repeat(Char, MaxNumBonesPerVert);
    FormatSizeRepeat(Float32, MaxNumBonesPerVert);
    FormatSizeRepeat(Char, MaxNumBonesPerVert);
    FormatSizeAppend(weights, bones);
    FormatSizeAppend(weights + bones, [UInt8]);
    FormatSizeByPosition([UInt8]);
  }

  // ---- records ----

  datatype Fixup = Fixup(lod: int, sourceVertexId: int, numVertexes: int)

  /** weight holds raw float bit patterns; bone holds the 'c' fields as byte values. */
  datatype BoneWeight = BoneWeight(weight: seq<int>, bone: seq<int>, numBones: int)

  datatype Vertex = Vertex(boneWeights: BoneWeight, position: seq<int>, normal: seq<int>, texCoord: seq<int>)

  datatype Vvd = Vvd(version: int, checksum: int, numLods: int, numLodVertexes: seq<int>,
                     fixups: seq<Fixup>, vertexes: seq<Vertex>, tangents: seq<seq<int>>)

  // ---- what each constructor reads ----

  function FixupAt(data: seq<byte>, p: nat): (r: Result<Fixup>)
    ensures r.Ok? <==> p + FixupSize <= |data|
  {
    HeaderSizes();
    var v :- UnpackAt(data, p, FixupFormat);
    Ok(Fixup(v[0], v[1], v[2]))
  }

  function BoneWeightAt(data: seq<byte>, p: nat): (r: Result<BoneWeight>)
    ensures r.Ok? <==> p + BoneWeightSize <= |data|
  {
    BoneWeightFormatSize();
    var v :- UnpackAt(data, p, BoneWeightFormat);
    Ok(BoneWeight(v[..MaxNumBonesPerVert], v[MaxNumBonesPerVert..2 * MaxNumBonesPerVert], v[|v| - 1]))
  }

  function VertexAt(data: seq<byte>, p: nat): (r: Result<Vertex>)
    ensures r.Ok? <==> p + VertexSize <= |data|
  {
    VectorSizes();
    var weights :- BoneWeightAt(data, p);
    var position :- UnpackAt(data, p + BoneWeightSize, Vec3Format);
    var normal :- UnpackAt(data, p + BoneWeightSize + Vec3Size, Vec3Format);
    var texCoord :- UnpackAt(data, p + BoneWeightSize + 2 * Vec3Size, Vec2Format);
    Ok(Vertex(weights, position, normal, texCoord))
  }

  /** VVD.__init__ with the stream at p: the header, the magic check, the
      per-LOD counts and the table header; the result carries where the cursor is left. */
  ghost function VvdAt(data: seq<byte>, p: nat): (r: Result<(Vvd, nat)>)
    ensures r.Ok? ==> p + VvdHeaderSize + LodCountsSize + TableHeaderSize <= |data|
    ensures r.Ok? ==> |r.value.0.numLodVertexes| == MaxNumLods
  {
    HeaderSizes();
    var h :- UnpackAt(data, p, VvdHeader);
    if h[0] != VvdId then Err(BadMagic(VvdId, h[0]))
    else
      var lodVertexes :- Records(data, p + VvdHeaderSize, MaxNumLods, CodeSize(Int32), FieldReader(Int32));
      var t :- UnpackAt(data, p + VvdHeaderSize + LodCountsSize, TableHeader);
      VvdTablesAt(data, p, h, lodVertexes, t)
  }

  /** The three tables, each at start + its offset; vertices and tangents both count lodVertexes[0]. */
  ghost function VvdTablesAt(data: seq<byte>, start: nat, h: seq<int>, lodVertexes: seq<int>, t: seq<int>): (r: Result<(Vvd, nat)>)
    requires |h| == |VvdHeader| && |lodVertexes| == MaxNumLods && |t| == |TableHeader|
    ensures r.Ok? ==> var v := r.value.0;
                      v.numLodVertexes == lodVertexes && |v.fixups| == Count(t[0]) &&
                      |v.vertexes| == |v.tangents| == Count(lodVertexes[0])
  {
    var fixups :- TableAt(data, start + t[1], t[0], FixupSize, FixupAt);
    var vertexes :- TableAt(data, start + t[2], lodVertexes[0], VertexSize, VertexAt);
    var tangents :- TableAt(data, start + t[3], lodVertexes[0], TangentSize, UnpackReader(TangentFormat));
    Ok((Vvd(h[1], h[2], h[3], lodVertexes, fixups, vertexes, tangents),
        start + t[3] + Count(lodVertexes[0]) * TangentSize))
  }

  // ---- properties ----

  /** The magic number is the four bytes "IDSV". */
  lemma MagicBytes(b: seq<byte>)
    requires |b| == 4
    ensures LittleEndian(b) == VvdId <==> b == [0x49, 0x44, 0x53, 0x56]
  {
    var magic: seq<byte> := [0x49, 0x44, 0x53, 0x56];
    assert LittleEndian(magic[3..]) == 0x56;
    assert LittleEndian(magic[2..]) == 0x5653;
    assert LittleEndian(magic[1..]) == 0x56_5344;
    assert LittleEndian(magic) == VvdId;
    LittleEndianInjective(b, magic);
  }

  /** A file is accepted only when it starts with "IDSV"; a readable header
      with any other first four bytes is rejected with the id it found. */
  lemma VvdMagic(data: seq<byte>, p: nat)
    ensures VvdAt(data, p).Ok? ==> p + 4 <= |data| && data[p..p + 4] == [0x49, 0x44, 0x53, 0x56]
    ensures p + VvdHeaderSize <= |data| && data[p..p + 4] != [0x49, 0x44, 0x53, 0x56] ==>
              VvdAt(data, p) == Err(BadMagic(VvdId, LittleEndian(data[p..p + 4])))
  {
    HeaderSizes();
    var h := UnpackAt(data, p, VvdHeader);
    if h.Ok? {
      var b := data[p..p + VvdHeaderSize];
      assert h.value == Unpack(VvdHeader, b);
      UnpackField(VvdHeader, b, 0);
      assert PrefixSize(VvdHeader, 1) == 4;
      assert b[0..4] == data[p..p + 4];
      DecodeFieldBits(UInt32, data[p..p + 4]);
      MagicBytes(data[p..p + 4]);
    }
  }

  /** A VVD that reads has read its header, its LOD counts and its table header. */
  lemma VvdAtTables(data: seq<byte>, p: nat)
    requires VvdAt(data, p).Ok?
    ensures UnpackAt(data, p, VvdHeader).Ok?
    ensures Records(data, p + VvdHeaderSize, MaxNumLods, CodeSize(Int32), FieldReader(Int32)).Ok?
    ensures UnpackAt(data, p + VvdHeaderSize + LodCountsSize, TableHeader).Ok?
    ensures VvdAt(data, p) ==
              VvdTablesAt(data, p, UnpackAt(data, p, VvdHeader).value,
                          Records(data, p + VvdHeaderSize, MaxNumLods, CodeSize(Int32), FieldReader(Int32)).value,
                          UnpackAt(data, p + VvdHeaderSize + LodCountsSize, TableHeader).value)
  {
  }

  /** A VVD that reads, with table header t, has num_fixups fixups (none for a
      negative count), MAX_NUM_LODS per-LOD counts and exactly one tangent per
      vertex, both tables sized by the vertex count of LOD 0. */
  lemma VvdShape(data: seq<byte>, p: nat, t: seq<int>)
    requires VvdAt(data, p).Ok?
    requires UnpackAt(data, p + VvdHeaderSize + LodCountsSize, TableHeader) == Ok(t)
    ensures |t| == 4
    ensures var v := VvdAt(data, p).value.0;
            |v.fixups| == Count(t[0]) &&
            |v.numLodVertexes| == MaxNumLods &&
            |v.vertexes| == |v.tangents| == Count(v.numLodVertexes[0]) &&
            forall i :: 0 <= i < |v.tangents| ==> |v.tangents[i]| == 4
  {
    HeaderSizes();
    VvdAtTables(data, p);
    TablesShape(data, p, UnpackAt(data, p, VvdHeader).value,
                Records(data, p + VvdHeaderSize, MaxNumLods, CodeSize(Int32), FieldReader(Int32)).value, t);
  }

  lemma TablesShape(data: seq<byte>, start: nat, h: seq<int>, lodVertexes: seq<int>, t: seq<int>)
    requires |h| == |VvdHeader| && |lodVertexes| == MaxNumLods && |t| == |TableHeader|
    requires VvdTablesAt(data, start, h, lodVertexes, t).Ok?
    ensures var v := VvdTablesAt(data, start, h, lodVertexes, t).value.0;
            v.numLodVertexes == lodVertexes &&
            |v.fixups| == Count(t[0]) &&
            |v.vertexes| == |v.tangents| == Count(lodVertexes[0]) &&
            forall i :: 0 <= i < |v.tangents| ==> |v.tangents[i]| == 4
  {
    VectorSizes();
    UnpackTableShape(data, start + t[3], lodVertexes[0], TangentFormat);
  }

  /** The bone-weight fields split the unpacked values as weight, bone and count:
      MAX weights, MAX bone ids, each a byte, and a count byte. */
  lemma BoneWeightFields(data: seq<byte>, p: nat)
    requires BoneWeightAt(data, p).Ok?
    ensures var w := BoneWeightAt(data, p).value;
            |w.weight| == |w.bone| == MaxNumBonesPerVert &&
            (forall i :: 0 <= i < |w.bone| ==> 0 <= w.bone[i] < 0x100) &&
            0 <= w.numBones < 0x100
  {
    BoneWeightFormatSize();
    var b := ReadAt(data, p, BoneWeightSize);
    UnpackInRange(BoneWeightFormat, b);
    var v := Unpack(BoneWeightFormat, b);
    forall i | MaxNumBonesPerVert <= i < 2 * MaxNumBonesPerVert
      ensures BoneWeightFormat[i] == Char
    {
      assert BoneWeightFormat[i] == Repeat(Char, MaxNumBonesPerVert)[i - MaxNumBonesPerVert];
    }
    assert BoneWeightFormat[|v| - 1] == UInt8;
  }

  // ---- the constructors ----

  /** VVDFixup.__init__ */
  method ReadFixup(buf: Cursor) returns (r: Result<Fixup>)
    modifies buf
    ensures r == FixupAt(buf.data, old(buf.pos))
    ensures r.Ok? ==> buf.pos == old(buf.pos) + FixupSize
  {
    HeaderSizes();
    var v :- StructUnpack(FixupFormat, buf);
    return Ok(Fixup(v[0], v[1], v[2]));
  }

  /** VVDBoneWeight.__init__ */
  method ReadBoneWeight(buf: Cursor) returns (r: Result<BoneWeight>)
    modifies buf
    ensures r == BoneWeightAt(buf.data, old(buf.pos))
    ensures r.Ok? ==> buf.pos == old(buf.pos) + BoneWeightSize
  {
    BoneWeightFormatSize();
    var v :- StructUnpack(BoneWeightFormat, buf);
    return Ok(BoneWeight(v[..MaxNumBonesPerVert], v[MaxNumBonesPerVert..2 * MaxNumBonesPerVert], v[|v| - 1]));
  }

  /** VVDVertex.__init__ */
  method ReadVertex(buf: Cursor) returns (r: Result<Vertex>)
    modifies buf
    ensures r == VertexAt(buf.data, old(buf.pos))
    ensures r.Ok? ==> buf.pos == old(buf.pos) + VertexSize
  {
    VectorSizes();
    var weights :- ReadBoneWeight(buf);
    var position :- StructUnpack(Vec3Format, buf);
    var normal :- StructUnpack(Vec3Format, buf);
    var texCoord :- StructUnpack(Vec2Format, buf);
    return Ok(Vertex(weights, position, normal, texCoord));
  }

  /** VVD.__init__: the cursor is left after the last tangent. */
  method ReadVvd(buf: Cursor) returns (r: Result<Vvd>)
    modifies buf
    ensures VvdAt(buf.data, old(buf.pos)).Ok? <==> r.Ok?
    ensures r.Err? ==> r.error == VvdAt(buf.data, old(buf.pos)).error
    ensures r.Ok? ==> (r.value, buf.pos) == VvdAt(buf.data, old(buf.pos)).value
  {
    HeaderSizes();
    var start := buf.Tell();
    ghost var spec := VvdAt(buf.data, start);
    var header := StructUnpack(VvdHeader, buf);
    if header.Err? {
      assert spec == Err(header.error);
      return Err(header.error);
    }
    var h := header.value;
    if h[0] != VvdId {
      assert spec == Err(BadMagic(VvdId, h[0]));
      return Err(BadMagic(VvdId, h[0]));
    }
    var lodVertexes := ReadFields(Int32, MaxNumLods, buf);
    if lodVertexes.Err? {
      assert spec == Err(lodVertexes.error);
      return Err(lodVertexes.error);
    }
    var t := StructUnpack(TableHeader, buf);
    if t.Err? {
      assert spec == Err(t.error);
      return Err(t.error);
    }
    assert spec == VvdTablesAt(buf.data, start, h, lodVertexes.value, t.value);
    r := ReadVvdTables(start, h, lodVertexes.value, t.value, buf);
  }

  /** The three seeks and tables of VVD.__init__. */
  method ReadVvdTables(start: nat, h: seq<int>, lodVertexes: seq<int>, t: seq<int>, buf: Cursor) returns (r: Result<Vvd>)
    requires |h| == |VvdHeader| && |lodVertexes| == MaxNumLods && |t| == |TableHeader|
    modifies buf
    ensures VvdTablesAt(buf.data, start, h, lodVertexes, t).Ok? <==> r.Ok?
    ensures r.Err? ==> r.error == VvdTablesAt(buf.data, start, h, lodVertexes, t).error
    ensures r.Ok? ==> (r.value, buf.pos) == VvdTablesAt(buf.data, start, h, lodVertexes, t).value
  {
    ghost var spec := VvdTablesAt(buf.data, start, h, lodVertexes, t);
    var fixups := ReadFixups(start + t[1], t[0], buf);
    if fixups.Err? {
      assert spec == Err(fixups.error);
      return Err(fixups.error);
    }
    var vertexes := ReadVertexes(start + t[2], lodVertexes[0], buf);
    if vertexes.Err? {
      assert spec == Err(vertexes.error);
      return Err(vertexes.error);
    }
    var tangents := ReadTangents(start + t[3], lodVertexes[0], buf);
    if tangents.Err? {
      assert spec == Err(tangents.error);
      return Err(tangents.error);
    }
    r := Ok(Vvd(h[1], h[2], h[3], lodVertexes, fixups.value, vertexes.value, tangents.value));
    assert spec == Ok((r.value, buf.pos));
  }

  // ---- tables: buf.seek(target), then count records ----

  method ReadFixups(target: int, count: int, buf: Cursor) returns (r: Result<seq<Fixup>>)
    modifies buf
    ensures r == TableAt(buf.data, target, count, FixupSize, FixupAt)
    ensures r.Ok? ==> buf.pos == target + Count(count) * FixupSize
  {
    var base :- buf.Seek(target, FromStart);
    TableAtRecords(buf.data, base, count, FixupSize, FixupAt);
    var items: seq<Fixup> := [];
    var i := 0;
    while i < count
      invariant 0 <= i <= Count(count)
      invariant buf.pos == Slot(base, i, FixupSize)
      invariant Records(buf.data, base, i, FixupSize, FixupAt) == Ok(items)
    {
      var item := ReadFixup(buf);
      TableStep(buf.data, base, count, FixupSize, FixupAt, i, items, item);
      if item.Err? {
        return Err(item.error);
      }
      items := items + [item.value];
      i := i + 1;
    }
    assert i == Count(count);
    return Ok(items);
  }

  method ReadVertexes(target: int, count: int, buf: Cursor) returns (r: Result<seq<Vertex>>)
    modifies buf
    ensures r == TableAt(buf.data, target, count, VertexSize, VertexAt)
    ensures r.Ok? ==> buf.pos == target + Count(count) * VertexSize
  {
    var base :- buf.Seek(target, FromStart);
    TableAtRecords(buf.data, base, count, VertexSize, VertexAt);
    var items: seq<Vertex> := [];
    var i := 0;
    while i < count
      invariant 0 <= i <= Count(count)
      invariant buf.pos == Slot(base, i, VertexSize)
      invariant Records(buf.data, base, i, VertexSize, VertexAt) == Ok(items)
    {
      var item := ReadVertex(buf);
      TableStep(buf.data, base, count, VertexSize, VertexAt, i, items, item);
      if item.Err? {
        return Err(item.error);
      }
      items := items + [item.value];
      i := i + 1;
    }
    assert i == Count(count);
    return Ok(items);
  }

  /** list(map(lambda _: _struct_unpack('=ffff', buf), range(count))) after the seek. */
  method ReadTangents(target: int, count: int, buf: Cursor) returns (r: Result<seq<seq<int>>>)
    modifies buf
    ensures r == TableAt(buf.data, target, count, TangentSize, UnpackReader(TangentFormat))
    ensures r.Ok? ==> buf.pos == target + Count(count) * TangentSize
  {
    VectorSizes();
    var _ :- buf.Seek(target, FromStart);
    r := ReadUnpacks(TangentFormat, count, buf);
  }
}
