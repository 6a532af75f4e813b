/** The VTX reader: render batches organised as body part -> model -> LOD ->
    mesh -> strip group -> {vertices, indices, strips}.  Every nested level
    reads a (count, offset) header, remembers the position after it, seeks to
    the table, reads count records and seeks back; the stored offset is
    relative to the start of the header that holds it. */
module Vtx {
  import opened Bytes
  import opened Wrappers
  import opened Cursors
  import opened Util
  import opened Consts

  // ---- formats (struct format strings with the '=' prefix) ----

  const VertexCountsFormat: seq<Code> := [UInt8, UInt16]                                          // '=BH'
  const StripFormat: seq<Code> := [Int32, Int32, Int32, Int32, Int16, UInt8, Int32, Int32]        // '=iiiihBii'
  const StripGroupHeader: seq<Code> := [Int32, Int32, Int32, Int32, Int32, Int32, UInt8]          // '=iiiiiiB'
  const MeshHeader: seq<Code> := [Int32, Int32, UInt8]                                            // '=iiB'
  const ModelLodHeader: seq<Code> := [Int32, Int32, Float32]                                      // '=iif'
  const ModelHeader: seq<Code> := [Int32, Int32]                                                  // '=ii'
  const BodyPartHeader: seq<Code> := [Int32, Int32]                                               // '=ii'
  const VtxHeader: seq<Code> :=
    [UInt32, Int32, UInt16, UInt16, Int32, Int32, Int32, Int32, Int32, Int32]                     // '=IiHHiiiiii'

  // ---- sizes in bytes (struct.calcsize of the formats above) ----

  const VertexCountsSize: nat := 3
  /** One VTXVertex: MAX u8, then 'BH', then MAX i16. */
  const VertexSize: nat := 12
  const StripSize: nat := 27
  const StripGroupHeaderSize: nat := 25
  const MeshHeaderSize: nat := 9
  const ModelLodHeaderSize: nat := 12
  const ModelHeaderSize: nat := 8
  const BodyPartHeaderSize: nat := 8
  const VtxHeaderSize: nat := 36

  /** The sizes above are the packed sizes of the formats, and a vertex is its
      three parts back to back. The corrections the readers subtract from the
      stored offsets (25, 9, 12, 8, 8) are therefore exactly the header sizes:
      every offset counts from the start of the header that holds it. */
  lemma FormatSizes()
    ensures FormatSize(VertexCountsFormat) == VertexCountsSize
    ensures VertexSize == MaxNumBonesPerVert * CodeSize(UInt8) + VertexCountsSize + MaxNumBonesPerVert * CodeSize(Int16)
    ensures FormatSize(StripFormat) == StripSize
    ensures FormatSize(StripGroupHeader) == StripGroupHeaderSize
    ensures FormatSize(MeshHeader) == MeshHeaderSize
    ensures FormatSize(ModelLodHeader) == ModelLodHeaderSize
    ensures FormatSize(ModelHeader) == ModelHeaderSize
    ensures FormatSize(BodyPartHeader) == BodyPartHeaderSize
    ensures FormatSize(VtxHeader) == VtxHeaderSize
  {
    RecordSizes();
    InnerHeaderSizes();
    OuterHeaderSizes();
    FileHeaderSize();
  }

  lemma RecordSizes()
    ensures FormatSize(VertexCountsFormat) == VertexCountsSize
    ensures FormatSize(StripFormat) == StripSize
    ensures |VertexCountsFormat| == 2 && |StripFormat| == 8
  {
    FormatSizeByPosition(VertexCountsFormat);
    assert |VertexCountsFormat| == 2;
    FormatSizeByPosition(StripFormat);
    assert |StripFormat| == 8;
  }

  lemma InnerHeaderSizes()
    ensures FormatSize(StripGroupHeader) == StripGroupHeaderSize
    ensures FormatSize(MeshHeader) == MeshHeaderSize
    ensures FormatSize(ModelLodHeader) == ModelLodHeaderSize
    ensures |StripGroupHeader| == 7 && |MeshHeader| == 3 && |ModelLodHeader| == 3
  {
    FormatSizeByPosition(StripGroupHeader);
    assert |StripGroupHeader| == 7;
    FormatSizeByPosition(MeshHeader);
    assert |MeshHeader| == 3;
    FormatSizeByPosition(ModelLodHeader);
    assert |ModelLodHeader| == 3;
  }

  lemma OuterHeaderSizes()
    ensures FormatSize(ModelHeader) == ModelHeaderSize
    ensures FormatSize(BodyPartHeader) == BodyPartHeaderSize
    ensures |ModelHeader| == 2 && |BodyPartHeader| == 2
  {
    FormatSizeByPosition(ModelHeader);
    assert |ModelHeader| == 2;
    FormatSizeByPosition(BodyPartHeader);
    assert |BodyPartHeader| == 2;
  }

  lemma FileHeaderSize()
    ensures FormatSize(VtxHeader) == VtxHeaderSize
    ensures |VtxHeader| == 10
  {
    FormatSizeByPosition(VtxHeader);
    assert |VtxHeader| == 10;
  }

  // ---- records ----

  datatype Vertex = Vertex(boneWeightIndex: seq<int>, numBones: int, origMeshVertId: int, boneId: seq<int>)

  datatype Strip = Strip(numIndices: int, indexOffset: int, numVerts: int, vertOffset: int,
                         numBones: int, flags: int, numBoneStateChanges: int, boneStateChangeOffset: int)

  datatype StripGroup = StripGroup(flags: int, vertexes: seq<Vertex>, indices: seq<int>, strips: seq<Strip>)

  /** The strip-group list of a VTXMesh is stored under the name `meshes`. */
  datatype Mesh = Mesh(flags: int, meshes: seq<StripGroup>)

  /** switchPoint is the raw bit pattern of the 32-bit float. */
  datatype ModelLod = ModelLod(switchPoint: int, meshes: seq<Mesh>)

  datatype Model = Model(modelLods: seq<ModelLod>)

  datatype BodyPart = BodyPart(models: seq<Model>)

  datatype Vtx = Vtx(version: int, vertCacheSize: int, maxBonesPerStrip: int, maxBonesPerTri: int,
                     maxBonesPerVert: int, checksum: int, numLods: int, materialReplacementListOffset: int,
                     bodyParts: seq<BodyPart>)

  // ---- what each constructor reads, as functions of the bytes and the start position ----

  ghost function VertexAt(data: seq<byte>, p: nat): (r: Result<Vertex>)
    ensures r.Ok? ==> |r.value.boneWeightIndex| == |r.value.boneId| == MaxNumBonesPerVert
  {
    var boneWeightIndex :- Records(data, p, MaxNumBonesPerVert, CodeSize(UInt8), FieldReader(UInt8));
    var q := p + MaxNumBonesPerVert * CodeSize(UInt8);
    var counts :- UnpackAt(data, q, VertexCountsFormat);
    var boneId :- Records(data, q + VertexCountsSize, MaxNumBonesPerVert, CodeSize(Int16), FieldReader(Int16));
    Ok(Vertex(boneWeightIndex, counts[0], counts[1], boneId))
  }

  ghost function StripAt(data: seq<byte>, p: nat): (r: Result<Strip>)
    ensures r.Ok? <==> p + StripSize <= |data|
  {
    RecordSizes();
    var v :- UnpackAt(data, p, StripFormat);
    Ok(Strip(v[0], v[1], v[2], v[3], v[4], v[5], v[6], v[7]))
  }

  /** Each table offset is relative to the start of the 25-byte header: end - 25. */
  ghost function StripGroupAt(data: seq<byte>, p: nat): (r: Result<StripGroup>)
    ensures r.Ok? ==> p + StripGroupHeaderSize <= |data|
  {
    InnerHeaderSizes();
    var h :- UnpackAt(data, p, StripGroupHeader);
    StripGroupTablesAt(data, p + StripGroupHeaderSize, h)
  }

  /** The three tables of a strip group whose header h ends at end. */
  ghost function StripGroupTablesAt(data: seq<byte>, end: nat, h: seq<int>): (r: Result<StripGroup>)
    requires |h| == |StripGroupHeader|
    ensures r.Ok? ==> r.value.flags == h[6] && |r.value.vertexes| == Count(h[0]) &&
                      |r.value.indices| == Count(h[2]) && |r.value.strips| == Count(h[4])
  {
    var vertexes :- TableAt(data, SeekFrom(end, h[1] - 25, FromCurrent), h[0], VertexSize, VertexAt);
    var rest :- IndicesAndStripsAt(data, end, h);
    Ok(StripGroup(h[6], vertexes, rest.0, rest.1))
  }

  /** The index and strip tables of a strip group whose header h ends at end. */
  ghost function IndicesAndStripsAt(data: seq<byte>, end: nat, h: seq<int>): (r: Result<(seq<int>, seq<Strip>)>)
    requires |h| == |StripGroupHeader|
    ensures r.Ok? ==> |r.value.0| == Count(h[2]) && |r.value.1| == Count(h[4])
  {
    var indices :- TableAt(data, end + h[3] - 25, h[2], CodeSize(UInt16), FieldReader(UInt16));
    var strips :- TableAt(data, end + h[5] - 25, h[4], StripSize, StripAt);
    Ok((indices, strips))
  }

  ghost function MeshAt(data: seq<byte>, p: nat): (r: Result<Mesh>)
    ensures r.Ok? ==> p + MeshHeaderSize <= |data|
  {
    InnerHeaderSizes();
    var h :- UnpackAt(data, p, MeshHeader);
    var end := p + MeshHeaderSize;
    var groups :- TableAt(data, SeekFrom(end, h[1] - 9, FromCurrent), h[0], StripGroupHeaderSize, StripGroupAt);
    Ok(Mesh(h[2], groups))
  }

  ghost function ModelLodAt(data: seq<byte>, p: nat): (r: Result<ModelLod>)
    ensures r.Ok? ==> p + ModelLodHeaderSize <= |data|
  {
    InnerHeaderSizes();
    var h :- UnpackAt(data, p, ModelLodHeader);
    var end := p + ModelLodHeaderSize;
    var meshes :- TableAt(data, SeekFrom(end, h[1] - 12, FromCurrent), h[0], MeshHeaderSize, MeshAt);
    Ok(ModelLod(h[2], meshes))
  }

  ghost function ModelAt(data: seq<byte>, p: nat): (r: Result<Model>)
    ensures r.Ok? ==> p + ModelHeaderSize <= |data|
  {
    OuterHeaderSizes();
    var h :- UnpackAt(data, p, ModelHeader);
    var end := p + ModelHeaderSize;
    var lods :- TableAt(data, SeekFrom(end, h[1] - 8, FromCurrent), h[0], ModelLodHeaderSize, ModelLodAt);
    Ok(Model(lods))
  }

  ghost function BodyPartAt(data: seq<byte>, p: nat): (r: Result<BodyPart>)
    ensures r.Ok? ==> p + BodyPartHeaderSize <= |data|
  {
    OuterHeaderSizes();
    var h :- UnpackAt(data, p, BodyPartHeader);
    var end := p + BodyPartHeaderSize;
    var models :- TableAt(data, SeekFrom(end, h[1] - 8, FromCurrent), h[0], ModelHeaderSize, ModelAt);
    Ok(BodyPart(models))
  }

  /** The top level: a 36-byte header, no magic check, body parts at an
      absolute offset, and the cursor left after the last body part header. */
  ghost function VtxAt(data: seq<byte>, p: nat): (r: Result<(Vtx, nat)>)
    ensures r.Ok? ==> p + VtxHeaderSize <= |data| && r.value.1 >= |r.value.0.bodyParts| * BodyPartHeaderSize
  {
    FileHeaderSize();
    var h :- UnpackAt(data, p, VtxHeader);
    var parts :- TableAt(data, SeekFrom(p, h[9], FromStart), h[8], BodyPartHeaderSize, BodyPartAt);
    Ok((Vtx(h[0], h[1], h[2], h[3], h[4], h[5], h[6], h[7], parts), h[9] + Count(h[8]) * BodyPartHeaderSize))
  }

  /** A vertex reads exactly when its 12 bytes are there, and then holds MAX
      weight indices and MAX bone ids. */
  lemma VertexReads(data: seq<byte>, p: nat)
    ensures VertexAt(data, p).Ok? <==> p + VertexSize <= |data|
    ensures VertexAt(data, p).Ok? ==>
              var v := VertexAt(data, p).value;
              |v.boneWeightIndex| == |v.boneId| == MaxNumBonesPerVert
  {
    if p + VertexSize <= |data| {
      VertexFits(data, p);
    } else {
      VertexShort(data, p);
    }
  }

  lemma VertexFits(data: seq<byte>, p: nat)
    requires p + VertexSize <= |data|
    ensures VertexAt(data, p).Ok?
  {
    RecordSizes();
    RecordsLayout(data, p, MaxNumBonesPerVert, CodeSize(UInt8), FieldReader(UInt8));
    RecordsLayout(data, p + MaxNumBonesPerVert + VertexCountsSize, MaxNumBonesPerVert, CodeSize(Int16), FieldReader(Int16));
  }

  lemma VertexShort(data: seq<byte>, p: nat)
    requires p + VertexSize > |data|
    ensures VertexAt(data, p).Err?
  {
    var r := p + MaxNumBonesPerVert + VertexCountsSize;
    var ids := Records(data, r, MaxNumBonesPerVert, CodeSize(Int16), FieldReader(Int16));
    assert ids.Err? by {
      RecordsLayout(data, r, MaxNumBonesPerVert, CodeSize(Int16), FieldReader(Int16));
      assert FieldReader(Int16)(data, Slot(r, MaxNumBonesPerVert - 1, CodeSize(Int16))).Err?;
    }
  }

  // ---- where the nested tables lie ----
  // Each lemma names the table a record that reads has read: count records
  // at the start of the record's header plus the stored offset, because the
  // correction the reader subtracts (25, 9, 12, 8, 8) is the header's size.
  // Util.TableAtLayout then places record i of such a table i records further on.

  /** The vertex, index and strip tables of a strip group. */
  lemma StripGroupTables(data: seq<byte>, p: nat, h: seq<int>, g: StripGroup)
    requires StripGroupAt(data, p) == Ok(g) && UnpackAt(data, p, StripGroupHeader) == Ok(h)
    ensures |h| == 7 && g.flags == h[6]
    ensures TableAt(data, p + h[1], h[0], VertexSize, VertexAt) == Ok(g.vertexes)
    ensures TableAt(data, p + h[3], h[2], CodeSize(UInt16), FieldReader(UInt16)) == Ok(g.indices)
    ensures TableAt(data, p + h[5], h[4], StripSize, StripAt) == Ok(g.strips)
  {
    InnerHeaderSizes();
    var end := p + StripGroupHeaderSize;
    assert SeekFrom(end, h[1] - 25, FromCurrent) == p + h[1];
    assert end + h[3] - 25 == p + h[3] && end + h[5] - 25 == p + h[5];
  }

  /** The strip-group table of a mesh. */
  lemma MeshTable(data: seq<byte>, p: nat, h: seq<int>, m: Mesh)
    requires MeshAt(data, p) == Ok(m) && UnpackAt(data, p, MeshHeader) == Ok(h)
    ensures |h| == 3 && m.flags == h[2]
    ensures TableAt(data, p + h[1], h[0], StripGroupHeaderSize, StripGroupAt) == Ok(m.meshes)
  {
    InnerHeaderSizes();
    assert SeekFrom(p + MeshHeaderSize, h[1] - 9, FromCurrent) == p + h[1];
  }

  /** The mesh table of a LOD. */
  lemma ModelLodTable(data: seq<byte>, p: nat, h: seq<int>, l: ModelLod)
    requires ModelLodAt(data, p) == Ok(l) && UnpackAt(data, p, ModelLodHeader) == Ok(h)
    ensures |h| == 3 && l.switchPoint == h[2]
    ensures TableAt(data, p + h[1], h[0], MeshHeaderSize, MeshAt) == Ok(l.meshes)
  {
    InnerHeaderSizes();
    assert SeekFrom(p + ModelLodHeaderSize, h[1] - 12, FromCurrent) == p + h[1];
  }

  /** The LOD table of a model. */
  lemma ModelTable(data: seq<byte>, p: nat, h: seq<int>, m: Model)
    requires ModelAt(data, p) == Ok(m) && UnpackAt(data, p, ModelHeader) == Ok(h)
    ensures |h| == 2
    ensures TableAt(data, p + h[1], h[0], ModelLodHeaderSize, ModelLodAt) == Ok(m.modelLods)
  {
    OuterHeaderSizes();
    assert SeekFrom(p + ModelHeaderSize, h[1] - 8, FromCurrent) == p + h[1];
  }

  /** The model table of a body part. */
  lemma BodyPartTable(data: seq<byte>, p: nat, h: seq<int>, b: BodyPart)
    requires BodyPartAt(data, p) == Ok(b) && UnpackAt(data, p, BodyPartHeader) == Ok(h)
    ensures |h| == 2
    ensures TableAt(data, p + h[1], h[0], ModelHeaderSize, ModelAt) == Ok(b.models)
  {
    OuterHeaderSizes();
    assert SeekFrom(p + BodyPartHeaderSize, h[1] - 8, FromCurrent) == p + h[1];
  }

  /** The body-part table of a file, at an absolute offset wherever the header
      was read from; the cursor is left after the last body-part header. */
  lemma VtxTable(data: seq<byte>, p: nat, h: seq<int>, v: Vtx, end: nat)
    requires VtxAt(data, p) == Ok((v, end)) && UnpackAt(data, p, VtxHeader) == Ok(h)
    ensures |h| == 10 && h[9] >= 0 && end == h[9] + |v.bodyParts| * BodyPartHeaderSize
    ensures v == Vtx(h[0], h[1], h[2], h[3], h[4], h[5], h[6], h[7], v.bodyParts)
    ensures TableAt(data, h[9], h[8], BodyPartHeaderSize, BodyPartAt) == Ok(v.bodyParts)
  {
    FileHeaderSize();
  }

  // ---- the constructors, reading through the shared cursor ----

  /** VTXVertex.__init__ */
  method ReadVertex(buf: Cursor) returns (r: Result<Vertex>)
    modifies buf
    ensures r == VertexAt(buf.data, old(buf.pos))
    ensures r.Ok? ==> buf.pos == old(buf.pos) + VertexSize
  {
    RecordSizes();
    ghost var p := buf.pos;
    var boneWeightIndex :- ReadFields(UInt8, MaxNumBonesPerVert, buf);
    ghost var q := buf.pos;
    assert q == p + MaxNumBonesPerVert * CodeSize(UInt8);
    var counts :- StructUnpack(VertexCountsFormat, buf);
    assert buf.pos == q + VertexCountsSize;
    var boneId :- ReadFields(Int16, MaxNumBonesPerVert, buf);
    return Ok(Vertex(boneWeightIndex, counts[0], counts[1], boneId));
  }

  /** VTXStrip.__init__ */
  method ReadStrip(buf: Cursor) returns (r: Result<Strip>)
    modifies buf
    ensures r == StripAt(buf.data, old(buf.pos))
    ensures r.Ok? ==> buf.pos == old(buf.pos) + StripSize
  {
    RecordSizes();
    var v :- StructUnpack(StripFormat, buf);
    return Ok(Strip(v[0], v[1], v[2], v[3], v[4], v[5], v[6], v[7]));
  }

  /** VTXStripGroup.__init__: three tables, each at the header start plus its offset. */
  method ReadStripGroup(buf: Cursor) returns (r: Result<StripGroup>)
    modifies buf
    ensures r == StripGroupAt(buf.data, old(buf.pos))
    ensures r.Ok? ==> buf.pos == old(buf.pos) + StripGroupHeaderSize
  {
    InnerHeaderSizes();
    var h :- StructUnpack(StripGroupHeader, buf);
    var end := buf.Tell();
    var group :- ReadStripGroupTables(h, buf);
    var _ := buf.Seek(end, FromStart);
    return Ok(group);
  }

  /** The rest of VTXStripGroup.__init__, with the cursor just past the header h. */
  method ReadStripGroupTables(h: seq<int>, buf: Cursor) returns (r: Result<StripGroup>)
    requires |h| == |StripGroupHeader|
    modifies buf
    ensures r == StripGroupTablesAt(buf.data, old(buf.pos), h)
  {
    var end := buf.Tell();
    var vertexes :- ReadVertexes(h[1] - 25, FromCurrent, h[0], buf);
    var rest :- ReadIndicesAndStrips(end, h, buf);
    return Ok(StripGroup(h[6], vertexes, rest.0, rest.1));
  }

  /** The index and strip tables, each found by an absolute seek from the header end. */
  method ReadIndicesAndStrips(end: nat, h: seq<int>, buf: Cursor) returns (r: Result<(seq<int>, seq<Strip>)>)
    requires |h| == |StripGroupHeader|
    modifies buf
    ensures r == IndicesAndStripsAt(buf.data, end, h)
  {
    ghost var spec := IndicesAndStripsAt(buf.data, end, h);
    var indices := ReadIndices(end + h[3] - 25, h[2], buf);
    if indices.Err? {
      assert spec == Err(indices.error);
      return Err(indices.error);
    }
    var strips := ReadStrips(end + h[5] - 25, FromStart, h[4], buf);
    if strips.Err? {
      assert spec == Err(strips.error);
      return Err(strips.error);
    }
    r := Ok((indices.value, strips.value));
    assert spec == r;
  }

  /** buf.seek(target) followed by the index table of a strip group. */
  method ReadIndices(target: int, count: int, buf: Cursor) returns (r: Result<seq<int>>)
    modifies buf
    ensures r == TableAt(buf.data, target, count, CodeSize(UInt16), FieldReader(UInt16))
  {
    var _ :- buf.Seek(target, FromStart);
    r := ReadFields(UInt16, count, buf);
  }

  /** VTXMesh.__init__ */
  method ReadMesh(buf: Cursor) returns (r: Result<Mesh>)
    modifies buf
    ensures r == MeshAt(buf.data, old(buf.pos))
    ensures r.Ok? ==> buf.pos == old(buf.pos) + MeshHeaderSize
  {
    InnerHeaderSizes();
    var h :- StructUnpack(MeshHeader, buf);
    var end := buf.Tell();
    var groups :- ReadStripGroups(h[1] - 9, FromCurrent, h[0], buf);
    var _ := buf.Seek(end, FromStart);
    return Ok(Mesh(h[2], groups));
  }

  /** VTXModelLOD.__init__ */
  method ReadModelLod(buf: Cursor) returns (r: Result<ModelLod>)
    modifies buf
    ensures r == ModelLodAt(buf.data, old(buf.pos))
    ensures r.Ok? ==> buf.pos == old(buf.pos) + ModelLodHeaderSize
  {
    InnerHeaderSizes();
    var h :- StructUnpack(ModelLodHeader, buf);
    var end := buf.Tell();
    var meshes :- ReadMeshes(h[1] - 12, FromCurrent, h[0], buf);
    var _ := buf.Seek(end, FromStart);
    return Ok(ModelLod(h[2], meshes));
  }

  /** VTXModel.__init__ */
  method ReadModel(buf: Cursor) returns (r: Result<Model>)
    modifies buf
    ensures r == ModelAt(buf.data, old(buf.pos))
    ensures r.Ok? ==> buf.pos == old(buf.pos) + ModelHeaderSize
  {
    OuterHeaderSizes();
    var h :- StructUnpack(ModelHeader, buf);
    var end := buf.Tell();
    var lods :- ReadModelLods(h[1] - 8, FromCurrent, h[0], buf);
    var _ := buf.Seek(end, FromStart);
    return Ok(Model(lods));
  }

  /** VTXBodyPart.__init__ */
  method ReadBodyPart(buf: Cursor) returns (r: Result<BodyPart>)
    modifies buf
    ensures r == BodyPartAt(buf.data, old(buf.pos))
    ensures r.Ok? ==> buf.pos == old(buf.pos) + BodyPartHeaderSize
  {
    OuterHeaderSizes();
    var h :- StructUnpack(BodyPartHeader, buf);
    var end := buf.Tell();
    var models :- ReadModels(h[1] - 8, FromCurrent, h[0], buf);
    var _ := buf.Seek(end, FromStart);
    return Ok(BodyPart(models));
  }

  /** VTX.__init__ */
  method ReadVtx(buf: Cursor) returns (r: Result<Vtx>)
    modifies buf
    ensures VtxAt(buf.data, old(buf.pos)).Ok? <==> r.Ok?
    ensures r.Err? ==> r.error == VtxAt(buf.data, old(buf.pos)).error
    ensures r.Ok? ==> (r.value, buf.pos) == VtxAt(buf.data, old(buf.pos)).value
  {
    FileHeaderSize();
    ghost var spec := VtxAt(buf.data, buf.pos);
    var header := StructUnpack(VtxHeader, buf);
    if header.Err? {
      assert spec == Err(header.error);
      return Err(header.error);
    }
    var h := header.value;
    var parts := ReadBodyParts(h[9], FromStart, h[8], buf);
    if parts.Err? {
      assert spec == Err(parts.error);
      return Err(parts.error);
    }
    r := Ok(Vtx(h[0], h[1], h[2], h[3], h[4], h[5], h[6], h[7], parts.value));
    assert spec == Ok((r.value, buf.pos));
  }

  // ---- tables: buf.seek(offset, whence), then list(map(cls, [buf] * count)) ----

  method ReadVertexes(offset: int, whence: Whence, count: int, buf: Cursor) returns (r: Result<seq<Vertex>>)
    modifies buf
    ensures r == TableAt(buf.data, SeekFrom(old(buf.pos), offset, whence), count, VertexSize, VertexAt)
    ensures r.Ok? ==> buf.pos == SeekFrom(old(buf.pos), offset, whence) + Count(count) * VertexSize
  {
    var _ :- buf.Seek(offset, whence);
    ghost var base := buf.pos;
    TableAtRecords(buf.data, base, count, VertexSize, VertexAt);
    var items: seq<Vertex> := [];
    var i := 0;
    while i < count
      invariant 0 <= i <= Count(count)
      invariant buf.pos == Slot(base, i, VertexSize)
      invariant Records(buf.data, base, i, VertexSize, VertexAt) == Ok(items)
    {
      var item := ReadVertex(buf);
      TableStep(buf.data, base, count, VertexSize, VertexAt, i, items, item);
      if item.Err? {
        return Err(item.error);
      }
      items := items + [item.value];
      i := i + 1;
    }
    assert i == Count(count);
    return Ok(items);
  }

  method ReadStrips(offset: int, whence: Whence, count: int, buf: Cursor) returns (r: Result<seq<Strip>>)
    modifies buf
    ensures r == TableAt(buf.data, SeekFrom(old(buf.pos), offset, whence), count, StripSize, StripAt)
    ensures r.Ok? ==> buf.pos == SeekFrom(old(buf.pos), offset, whence) + Count(count) * StripSize
  {
    var _ :- buf.Seek(offset, whence);
    ghost var base := buf.pos;
    TableAtRecords(buf.data, base, count, StripSize, StripAt);
    var items: seq<Strip> := [];
    var i := 0;
    while i < count
      invariant 0 <= i <= Count(count)
      invariant buf.pos == Slot(base, i, StripSize)
      invariant Records(buf.data, base, i, StripSize, StripAt) == Ok(items)
    {
      var item := ReadStrip(buf);
      TableStep(buf.data, base, count, StripSize, StripAt, i, items, item);
      if item.Err? {
        return Err(item.error);
      }
      items := items + [item.value];
      i := i + 1;
    }
    assert i == Count(count);
    return Ok(items);
  }

  method ReadStripGroups(offset: int, whence: Whence, count: int, buf: Cursor) returns (r: Result<seq<StripGroup>>)
    modifies buf
    ensures r == TableAt(buf.data, SeekFrom(old(buf.pos), offset, whence), count, StripGroupHeaderSize, StripGroupAt)
    ensures r.Ok? ==> buf.pos == SeekFrom(old(buf.pos), offset, whence) + Count(count) * StripGroupHeaderSize
  {
    var _ :- buf.Seek(offset, whence);
    ghost var base := buf.pos;
    TableAtRecords(buf.data, base, count, StripGroupHeaderSize, StripGroupAt);
    var items: seq<StripGroup> := [];
    var i := 0;
    while i < count
      invariant 0 <= i <= Count(count)
      invariant buf.pos == Slot(base, i, StripGroupHeaderSize)
      invariant Records(buf.data, base, i, StripGroupHeaderSize, StripGroupAt) == Ok(items)
    {
      var item := ReadStripGroup(buf);
      TableStep(buf.data, base, count, StripGroupHeaderSize, StripGroupAt, i, items, item);
      if item.Err? {
        return Err(item.error);
      }
      items := items + [item.value];
      i := i + 1;
    }
    assert i == Count(count);
    return Ok(items);
  }

  method ReadMeshes(offset: int, whence: Whence, count: int, buf: Cursor) returns (r: Result<seq<Mesh>>)
    modifies buf
    ensures r == TableAt(buf.data, SeekFrom(old(buf.pos), offset, whence), count, MeshHeaderSize, MeshAt)
    ensures r.Ok? ==> buf.pos == SeekFrom(old(buf.pos), offset, whence) + Count(count) * MeshHeaderSize
  {
    var _ :- buf.Seek(offset, whence);
    ghost var base := buf.pos;
    TableAtRecords(buf.data, base, count, MeshHeaderSize, MeshAt);
    var items: seq<Mesh> := [];
    var i := 0;
    while i < count
      invariant 0 <= i <= Count(count)
      invariant buf.pos == Slot(base, i, MeshHeaderSize)
      invariant Records(buf.data, base, i, MeshHeaderSize, MeshAt) == Ok(items)
    {
      var item := ReadMesh(buf);
      TableStep(buf.data, base, count, MeshHeaderSize, MeshAt, i, items, item);
      if item.Err? {
        return Err(item.error);
      }
      items := items + [item.value];
      i := i + 1;
    }
    assert i == Count(count);
    return Ok(items);
  }

  method ReadModelLods(offset: int, whence: Whence, count: int, buf: Cursor) returns (r: Result<seq<ModelLod>>)
    modifies buf
    ensures r == TableAt(buf.data, SeekFrom(old(buf.pos), offset, whence), count, ModelLodHeaderSize, ModelLodAt)
    ensures r.Ok? ==> buf.pos == SeekFrom(old(buf.pos), offset, whence) + Count(count) * ModelLodHeaderSize
  {
    var _ :- buf.Seek(offset, whence);
    ghost var base := buf.pos;
    TableAtRecords(buf.data, base, count, ModelLodHeaderSize, ModelLodAt);
    var items: seq<ModelLod> := [];
    var i := 0;
    while i < count
      invariant 0 <= i <= Count(count)
      invariant buf.pos == Slot(base, i, ModelLodHeaderSize)
      invariant Records(buf.data, base, i, ModelLodHeaderSize, ModelLodAt) == Ok(items)
    {
      var item := ReadModelLod(buf);
      TableStep(buf.data, base, count, ModelLodHeaderSize, ModelLodAt, i, items, item);
      if item.Err? {
        return Err(item.error);
      }
      items := items + [item.value];
      i := i + 1;
    }
    assert i == Count(count);
    return Ok(items);
  }

  method ReadModels(offset: int, whence: Whence, count: int, buf: Cursor) returns (r: Result<seq<Model>>)
    modifies buf
    ensures r == TableAt(buf.data, SeekFrom(old(buf.pos), offset, whence), count, ModelHeaderSize, ModelAt)
    ensures r.Ok? ==> buf.pos == SeekFrom(old(buf.pos), offset, whence) + Count(count) * ModelHeaderSize
  {
    var _ :- buf.Seek(offset, whence);
    ghost var base := buf.pos;
    TableAtRecords(buf.data, base, count, ModelHeaderSize, ModelAt);
    var items: seq<Model> := [];
    var i := 0;
    while i < count
      invariant 0 <= i <= Count(count)
      invariant buf.pos == Slot(base, i, ModelHeaderSize)
      invariant Records(buf.data, base, i, ModelHeaderSize, ModelAt) == Ok(items)
    {
      var item := ReadModel(buf);
      TableStep(buf.data, base, count, ModelHeaderSize, ModelAt, i, items, item);
      if item.Err? {
        return Err(item.error);
      }
      items := items + [item.value];
      i := i + 1;
    }
    assert i == Count(count);
    return Ok(items);
  }

  method ReadBodyParts(offset: int, whence: Whence, count: int, buf: Cursor) returns (r: Result<seq<BodyPart>>)
    modifies buf
    ensures r == TableAt(buf.data, SeekFrom(old(buf.pos), offset, whence), count, BodyPartHeaderSize, BodyPartAt)
    ensures r.Ok? ==> buf.pos == SeekFrom(old(buf.pos), offset, whence) + Count(count) * BodyPartHeaderSize
  {
    var _ :- buf.Seek(offset, whence);
    ghost var base := buf.pos;
    TableAtRecords(buf.data, base, count, BodyPartHeaderSize, BodyPartAt);
    var items: seq<BodyPart> := [];
    var i := 0;
    while i < count
      invariant 0 <= i <= Count(count)
      invariant buf.pos == Slot(base, i, BodyPartHeaderSize)
      invariant Records(buf.data, base, i, BodyPartHeaderSize, BodyPartAt) == Ok(items)
    {
      var item := ReadBodyPart(buf);
      TableStep(buf.data, base, count, BodyPartHeaderSize, BodyPartAt, i, items, item);
      if item.Err? {
        return Err(item.error);
      }
      items := items + [item.value];
      i := i + 1;
    }
    assert i == Count(count);
    return Ok(items);
  }
}
