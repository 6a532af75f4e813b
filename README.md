# srcstudiomodel readers, modelled in Dafny

srcstudiomodel reads three Source-engine model files through one shared
binary reader:

- the `.vtx` render batches (body part → model → LOD → mesh → strip group →
  vertices, indices and strips);
- the `.vvd` vertex data (a header with the magic "IDSV", per-LOD vertex counts,
  and fixup, vertex and tangent tables);
- the `.mdl` header (magic "IDST", version, checksum, a 64-byte name and
  the flags word).

It also has a small codec for compressed vectors and quaternions packed into
32-, 48- and 64-bit little-endian words.

The model keeps the source's imperative form:

- `Cursors.Cursor` is the shared reader: an immutable byte sequence and a
  position, with `Tell`, `Seek` and `Read`.
- Every constructor of the source is a method on that cursor, proved equal to
  a function of the bytes and the start position (`VertexAt`, `MeshAt`,
  `VvdAt`, `MdlAt`, …). Its contract also states where the cursor ends up.
- Every table read (`list(map(cls, [buf] * count))`) is a `while` loop proved
  against `Util.Records`, the table described record by record.
- The codec is pure functions of the word, with a thin method that reads the
  bytes.

The lemmas about these functions state what the readers promise:

- field layout and ranges;
- where every nested table lies;
- the magic checks;
- the MDL name trimming;
- the bit-field round trips and the unit norm of the quaternions.

Modules: `Bytes` (little-endian integers), `Wrappers` (`Result` and the
errors), `Cursors`, `Util` (`_struct_unpack` and tables), `Consts`, `Vtx`,
`Vvd`, `Mdl`, `Compressed`.

Errors are values of `Wrappers.Error`:

- `Truncated`: `struct.error` on a short read;
- `NegativeSeek`: a seek before the start;
- `BadMagic`: the readers' `Exception`. The source's message names neither
  id; the expected and found ids the error carries are the model's own
  addition;
- `NegativeRadicand`: the `ValueError` of `math.sqrt`.

Three behaviours of the code that the model keeps:

- A negative table count reads an empty table, not an error, because
  `[buf] * n` and `range(n)` are empty for n < 0.
- A seek past the end of the data succeeds, and only the next read fails.
- The quaternion radicand `1 - x² - y² - z²` is not clamped to 0, so a
  negative radicand raises the `ValueError` of `math.sqrt`, as
  `Compressed.Quat48OfZero` shows for the all-zero word.

## Model

| member | source | states |
|---|---|---|
| Bytes.LittleEndianOfEncoding | srcstudiomodel/compressed.py:17 | decoding the n little-endian bytes of any v < 256^n gives v back |
| Bytes.EncodingOfLittleEndian | srcstudiomodel/compressed.py:17 | encoding the value of a byte string at its own length gives the same bytes back |
| Bytes.LittleEndianInjective | srcstudiomodel/util.py:5 | two byte strings of one length have equal little-endian values exactly when they are equal |
| Bytes.TwosComplement | srcstudiomodel/util.py:5 | the signed reading of an n-byte value is the value or the value minus 256^n, and lies in [-256^n/2, 256^n/2) |
| Cursors.ReadAt | srcstudiomodel/util.py:5 | `read(n)` returns n bytes when they are there, otherwise the bytes up to the end, each equal to the data at its position |
| Cursors.SeekTarget | srcstudiomodel/vtx.py:43 | a seek succeeds exactly when its target is not negative, landing on the target; otherwise it fails with NegativeSeek |
| Cursors.Cursor.Seek | srcstudiomodel/vtx.py:43 | returns the target for whence 0 or 1 and moves there; a negative target fails and leaves the position alone |
| Cursors.Cursor.Read | srcstudiomodel/util.py:5 | returns what `ReadAt` describes and advances by the number of bytes returned |
| Cursors.Cursor.Tell | srcstudiomodel/vtx.py:42 | returns the current position |
| Util.DecodeField | srcstudiomodel/util.py:5 | every decoded field lies in its code's range (u8, u16, i16, u32, i32, raw f32 bits) |
| Util.DecodeFieldBits | srcstudiomodel/util.py:5 | a decoded field is its little-endian unsigned value, minus 256^n when a signed field is negative; unsigned codes are exactly the unsigned value |
| Util.FormatSize | srcstudiomodel/util.py:5 | `struct.calcsize` of a '=' format: every code takes between 1 and 4 bytes, so the size lies between the number of codes and four times it |
| Util.Unpack | srcstudiomodel/util.py:5 | `struct.unpack` of exactly calcsize bytes yields one value per code (what each value is: `UnpackField`) |
| Util.UnpackAt | srcstudiomodel/util.py:4-5 | `_struct_unpack` succeeds exactly when calcsize(format) bytes remain, then returns one value per code; otherwise it fails with Truncated and no partial tuple |
| Util.StructUnpack | srcstudiomodel/util.py:4-5 | returns what `UnpackAt` describes at the old position and advances the cursor by exactly calcsize(format) on success |
| Util.FormatSizeAppend | srcstudiomodel/util.py:5 | calcsize of two formats written one after the other is the sum of their sizes (no alignment padding under '=') |
| Util.UnpackInRange | srcstudiomodel/util.py:5 | every unpacked value lies in the range of its code |
| Util.PrefixSizeIsFormatSize | srcstudiomodel/util.py:5 | the first i codes of a format take PrefixSize(fmt, i) bytes |
| Util.FormatSizeByPosition | srcstudiomodel/util.py:5 | calcsize is the sum of the code sizes by position |
| Util.UnpackField | srcstudiomodel/util.py:5 | value i is decoded from exactly the bytes between the sizes of the first i and first i + 1 codes: fields in format order, no padding |
| Util.UnpackFieldBytes | srcstudiomodel/util.py:5 | value i is decoded from the i-th field's bytes, which have that code's size |
| Util.FieldBytesAt | srcstudiomodel/util.py:5 | the i-th field's bytes are the slice between the sizes of the first i and first i + 1 codes |
| Util.FormatSizeRepeat | srcstudiomodel/vvd.py:21 | a format of n copies of one code takes n times that code's size |
| Util.FieldAt | srcstudiomodel/vtx.py:46 | `_struct_unpack(code, buf)[0]` succeeds exactly when the code's bytes remain, and its value lies in the code's range |
| Util.FieldAtValue | srcstudiomodel/vtx.py:46 | a single field is decoded from the code-size bytes at its position |
| Util.TableAt | srcstudiomodel/vtx.py:44 | a table that reads was reached by a non-negative seek and has Count(count) records: count, or none for a negative count |
| Util.Records | srcstudiomodel/vtx.py:44 | a table that reads has Count(count) records |
| Util.FirstFailure | srcstudiomodel/vtx.py:44 | when some record of a table fails, there is a first one that fails after all earlier ones read |
| Util.ReadInOrderIsRecords | srcstudiomodel/vtx.py:44 | reading records one after the other and stopping at the first failure gives exactly the table described position by position |
| Util.RecordsFailurePersists | srcstudiomodel/vtx.py:44 | a failing table keeps failing with the same error when one more record is asked for |
| Util.RecordsLayout | srcstudiomodel/vtx.py:44 | a table reads exactly when every record does, and record i is the one read at base + i × size |
| Util.RecordsSnoc | srcstudiomodel/vtx.py:44 | reading record i after a table of i records extends it by that record |
| Util.RecordsStopsAtError | srcstudiomodel/vtx.py:44 | when records 0..i-1 read and record i fails, the whole table fails with record i's error |
| Util.TableAtLayout | srcstudiomodel/vtx.py:61 | record i of a table that reads is the record read at target + i × record size, and the target is not negative |
| Util.TableStep | srcstudiomodel/vtx.py:44 | one record read either extends the table read so far or decides the error of the whole table |
| Util.UnpackTableShape | srcstudiomodel/vvd.py:68 | every row of a table of struct tuples has one value per code of its format |
| Util.ReadField | srcstudiomodel/vtx.py:14 | reads one field as `FieldAt` describes and advances by the code's size |
| Util.ReadFields | srcstudiomodel/vtx.py:14 | the loop of `list(map(lambda _: _struct_unpack(code, buf)[0], range(count)))` returns the described table and leaves the cursor after its last record |
| Util.ReadUnpacks | srcstudiomodel/vvd.py:68 | the loop of `list(map(lambda _: _struct_unpack(fmt, buf), range(count)))` returns the described table and leaves the cursor after its last record |
| Vtx.FormatSizes | srcstudiomodel/vtx.py:41-43 | the packed sizes of the headers are 25, 9, 12, 8, 8 and 36 bytes, a strip is 27 and a vertex 12: the corrections subtracted from the stored offsets are exactly the header sizes |
| Vtx.RecordSizes | srcstudiomodel/vtx.py:29-31 | '=iiiihBii' is 27 bytes and '=BH' is 3 |
| Vtx.InnerHeaderSizes | srcstudiomodel/vtx.py:58-60 | '=iiiiiiB' is 25 bytes, '=iiB' 9 and '=iif' 12 |
| Vtx.OuterHeaderSizes | srcstudiomodel/vtx.py:80-82 | both '=ii' headers are 8 bytes |
| Vtx.FileHeaderSize | srcstudiomodel/vtx.py:110-113 | the '=IiHHiiiiii' file header is 36 bytes of 10 fields |
| Vtx.VertexAt | srcstudiomodel/vtx.py:13-16 | a VTXVertex that reads holds MAX_NUM_BONES_PER_VERT weight indices and as many bone ids |
| Vtx.StripAt | srcstudiomodel/vtx.py:28-31 | a VTXStrip reads exactly when its 27 bytes remain |
| Vtx.StripGroupAt | srcstudiomodel/vtx.py:40-49 | a strip group that reads had its whole 25-byte header in the data |
| Vtx.StripGroupTablesAt | srcstudiomodel/vtx.py:43-48 | the tables read after a strip-group header hold vnum vertices, inum indices and snum strips (none for a negative count), and flags is the header's last field |
| Vtx.IndicesAndStripsAt | srcstudiomodel/vtx.py:45-48 | the index and strip tables hold inum and snum records (none for a negative count) |
| Vtx.MeshAt | srcstudiomodel/vtx.py:57-62 | a mesh that reads had its whole 9-byte header in the data |
| Vtx.ModelLodAt | srcstudiomodel/vtx.py:69-74 | a LOD that reads had its whole 12-byte header in the data |
| Vtx.ModelAt | srcstudiomodel/vtx.py:79-84 | a model that reads had its whole 8-byte header in the data |
| Vtx.BodyPartAt | srcstudiomodel/vtx.py:89-94 | a body part that reads had its whole 8-byte header in the data |
| Vtx.VtxAt | srcstudiomodel/vtx.py:109-115 | a file that reads had its whole 36-byte header in the data, and the cursor is left at least one body-part header per body part into the data |
| Vtx.VertexReads | srcstudiomodel/vtx.py:13-16 | a VTXVertex reads exactly when its 12 bytes remain, and then holds MAX weight indices and MAX bone ids |
| Vtx.VertexFits | srcstudiomodel/vtx.py:13-16 | 12 remaining bytes are enough for a vertex |
| Vtx.VertexShort | srcstudiomodel/vtx.py:16 | with fewer than 12 bytes left the vertex does not read |
| Vtx.StripGroupTables | srcstudiomodel/vtx.py:41-48 | the vertex, index and strip tables of a strip group are the tables of vnum, inum and snum records at the header start plus voff, ioff and soff; flags is the seventh header field |
| Vtx.MeshTable | srcstudiomodel/vtx.py:58-61 | the strip groups of a mesh are the table of num records at the mesh header start plus offset |
| Vtx.ModelLodTable | srcstudiomodel/vtx.py:70-73 | the meshes of a LOD are the table of num records at the LOD header start plus offset; switch_point is the third field |
| Vtx.ModelTable | srcstudiomodel/vtx.py:80-83 | the LODs of a model are the table of num records at the model header start plus offset |
| Vtx.BodyPartTable | srcstudiomodel/vtx.py:90-93 | the models of a body part are the table of num records at the body-part header start plus offset |
| Vtx.VtxTable | srcstudiomodel/vtx.py:110-115 | the body parts are the table of num_body_parts records at the absolute body_part_offset, wherever the header was read from; the eight scalar fields are the header's first eight; the cursor ends after the last body-part header |
| Vtx.ReadVertex | srcstudiomodel/vtx.py:13-16 | reads what `VertexAt` describes (MAX u8, then u8 and u16, then MAX i16) and advances 12 bytes |
| Vtx.ReadStrip | srcstudiomodel/vtx.py:28-31 | reads the eight strip fields as '=iiiihBii' and advances 27 bytes |
| Vtx.ReadStripGroup | srcstudiomodel/vtx.py:40-49 | reads what `StripGroupAt` describes and leaves the cursor just after its 25-byte header, whatever the tables consumed |
| Vtx.ReadStripGroupTables | srcstudiomodel/vtx.py:43-48 | reads the three tables of a strip group whose header ends at the cursor |
| Vtx.ReadIndicesAndStrips | srcstudiomodel/vtx.py:45-48 | reads the index and strip tables, each by an absolute seek from the header end |
| Vtx.ReadIndices | srcstudiomodel/vtx.py:45-46 | reads inum u16 indices at the seek target |
| Vtx.ReadMesh | srcstudiomodel/vtx.py:57-62 | reads what `MeshAt` describes and leaves the cursor just after its 9-byte header |
| Vtx.ReadModelLod | srcstudiomodel/vtx.py:69-74 | reads what `ModelLodAt` describes and leaves the cursor just after its 12-byte header |
| Vtx.ReadModel | srcstudiomodel/vtx.py:79-84 | reads what `ModelAt` describes and leaves the cursor just after its 8-byte header |
| Vtx.ReadBodyPart | srcstudiomodel/vtx.py:89-94 | reads what `BodyPartAt` describes and leaves the cursor just after its 8-byte header |
| Vtx.ReadVtx | srcstudiomodel/vtx.py:109-115 | succeeds exactly when `VtxAt` does, with its error or its value, and leaves the cursor where `VtxAt` says: not restored |
| Vtx.ReadVertexes | srcstudiomodel/vtx.py:44 | the loop over vnum vertices returns the described table and ends after its last record |
| Vtx.ReadStrips | srcstudiomodel/vtx.py:48 | the loop over snum strips returns the described table and ends after its last record |
| Vtx.ReadStripGroups | srcstudiomodel/vtx.py:61 | the loop over a mesh's strip groups returns the described table and ends after its last header |
| Vtx.ReadMeshes | srcstudiomodel/vtx.py:73 | the loop over a LOD's meshes returns the described table and ends after its last header |
| Vtx.ReadModelLods | srcstudiomodel/vtx.py:83 | the loop over a model's LODs returns the described table and ends after its last header |
| Vtx.ReadModels | srcstudiomodel/vtx.py:93 | the loop over a body part's models returns the described table and ends after its last header |
| Vtx.ReadBodyParts | srcstudiomodel/vtx.py:115 | the loop over the body parts returns the described table and ends after its last header |
| Vvd.FormatSizes | srcstudiomodel/vvd.py:53-59 | header 16 bytes, LOD counts 32, table header 16, fixup 12, bone weight 16, vectors 12 and 8, tangent 16; a vertex is its four parts back to back, 48 bytes |
| Vvd.HeaderSizes | srcstudiomodel/vvd.py:53-59 | '=IIIi' and '=iiii' are 16 bytes each, '=iii' 12 |
| Vvd.VectorSizes | srcstudiomodel/vvd.py:37-39 | '=fff' is 12 bytes, '=ff' 8 and '=ffff' 16 |
| Vvd.BoneWeightFormatSize | srcstudiomodel/vvd.py:21 | the bone-weight format has 2 × MAX + 1 codes and takes 16 bytes |
| Vvd.FixupAt | srcstudiomodel/vvd.py:12-14 | a fixup reads exactly when its 12 bytes remain |
| Vvd.BoneWeightAt | srcstudiomodel/vvd.py:23-27 | a bone-weight block reads exactly when its 16 bytes remain |
| Vvd.VertexAt | srcstudiomodel/vvd.py:35-39 | a VVDVertex reads exactly when its 48 bytes remain |
| Vvd.VvdAt | srcstudiomodel/vvd.py:50-68 | a VVD that reads had its header, its MAX_NUM_LODS counts and its table header (64 bytes) in the data, and keeps MAX_NUM_LODS counts |
| Vvd.VvdTablesAt | srcstudiomodel/vvd.py:61-68 | the tables read from a table header hold num_fixups fixups, and as many vertices as tangents, num_lod_vertexes[0] of each (none for a negative count); the LOD counts are kept |
| Vvd.BoneWeightFields | srcstudiomodel/vvd.py:24-27 | the unpacked values split into MAX weights, MAX bone ids each a byte value, and a count byte |
| Vvd.MagicBytes | srcstudiomodel/vvd.py:55 | the id 0x56534449 is exactly the four bytes "IDSV" |
| Vvd.VvdMagic | srcstudiomodel/vvd.py:53-56 | a file that reads starts with "IDSV"; a full header with other first bytes is rejected with the id it found |
| Vvd.VvdShape | srcstudiomodel/vvd.py:57-68 | a file that reads, with table header t, has Count(num_fixups) fixups, MAX_NUM_LODS LOD counts, and as many vertices as tangents, Count(num_lod_vertexes[0]), each tangent of 4 values |
| Vvd.TablesShape | srcstudiomodel/vvd.py:61-68 | the tables read from a table header keep the LOD counts, hold Count(num_fixups) fixups and size both vertices and tangents by LOD 0, each tangent of 4 values |
| Vvd.ReadFixup | srcstudiomodel/vvd.py:12-14 | reads the three i32 of a fixup and advances 12 bytes |
| Vvd.ReadBoneWeight | srcstudiomodel/vvd.py:23-27 | reads the bone-weight block and advances 16 bytes |
| Vvd.ReadVertex | srcstudiomodel/vvd.py:35-39 | reads bone weights, position, normal and texture coordinate, advancing 48 bytes |
| Vvd.ReadVvd | srcstudiomodel/vvd.py:50-68 | succeeds exactly when `VvdAt` does, with its error or its value, and leaves the cursor after the last tangent |
| Vvd.ReadVvdTables | srcstudiomodel/vvd.py:61-68 | reads the three tables at start + each offset, failing with the first table's error |
| Vvd.ReadFixups | srcstudiomodel/vvd.py:61-62 | the loop over num_fixups fixups returns the described table and ends after its last record |
| Vvd.ReadVertexes | srcstudiomodel/vvd.py:64-65 | the loop over num_lod_vertexes[0] vertices returns the described table and ends after its last record |
| Vvd.ReadTangents | srcstudiomodel/vvd.py:67-68 | the tangent table after the seek, ending after its last record |
| Mdl.HeaderSize | srcstudiomodel/mdl.py:18-23 | '=III' is 12 bytes, the flags lie at 12 + 64 + 76 = 152 and a header takes 156 bytes |
| Mdl.TrimTrailingNuls | srcstudiomodel/mdl.py:21 | `rstrip('\0')` keeps a prefix, drops only NULs and does not end in NUL |
| Mdl.TrimTrailingNulsUnique | srcstudiomodel/mdl.py:21 | the trimmed name is the only prefix that drops only trailing NULs and does not end in NUL |
| Mdl.TrimTrailingNulsIdempotent | srcstudiomodel/mdl.py:21 | trimming twice is trimming once |
| Mdl.MdlAt | srcstudiomodel/mdl.py:17-23 | a header that reads lies wholly in the data and leaves the cursor exactly 156 bytes on, with a name of at most 64 bytes; a failure is a short read or a wrong magic number |
| Mdl.MagicBytes | srcstudiomodel/mdl.py:19 | the id 0x54534449 is exactly the four bytes "IDST" |
| Mdl.HeaderField | srcstudiomodel/mdl.py:18 | the i-th u32 of the header is the little-endian value of bytes 4i..4i+4 |
| Mdl.MdlAccepts | srcstudiomodel/mdl.py:18-23 | a header reads exactly when 156 bytes remain and start with "IDST", and then the cursor ends 156 bytes on |
| Mdl.MdlFields | srcstudiomodel/mdl.py:18-23 | version and checksum are the u32s at +4 and +8, the name is the 64 bytes at +12 with trailing NULs removed, the flags the u32 at +152 |
| Mdl.MdlName | srcstudiomodel/mdl.py:21 | the name is at most 64 bytes, does not end in NUL and is the prefix of the name field, interior NULs kept |
| Mdl.ReadMdl | srcstudiomodel/mdl.py:17-23 | succeeds exactly when `MdlAt` does, with its error or its value, leaving the cursor where `MdlAt` says |
| Compressed.Field | srcstudiomodel/compressed.py:18 | a shifted and masked field is below its mask width |
| Compressed.WordAt | srcstudiomodel/compressed.py:17 | `int.from_bytes(buf.read(n), 'little')` is below 256^n |
| Compressed.ReadWord | srcstudiomodel/compressed.py:17 | reads up to n bytes and returns their little-endian value |
| Compressed.SplitVec32 | srcstudiomodel/compressed.py:18-21 | x, y, z are 10-bit fields and e a 2-bit field |
| Compressed.JoinSplitVec32 | srcstudiomodel/compressed.py:18-21 | every 32-bit word is its fields at bits 0, 10, 20 and 30 |
| Compressed.SplitJoinVec32 | srcstudiomodel/compressed.py:18-21 | any in-range fields placed at bits 0, 10, 20 and 30 are read back unchanged |
| Compressed.Vec32Scale | srcstudiomodel/compressed.py:22 | `[4, 16, 32, 64][e] / 512` is positive and at most 1/8 |
| Compressed.Vec32 | srcstudiomodel/compressed.py:16-23 | every vec32 component lies in [-64, 63.875] |
| Compressed.Vec32ComponentBounds | srcstudiomodel/compressed.py:22-23 | `(field - 512) × scale` lies in [-512 scale, 511 scale] within [-64, 63.875], and dividing back recovers the field |
| Compressed.Vec32Bounds | srcstudiomodel/compressed.py:16-23 | every vec32 component lies in [-64, 63.875] and gives back its field |
| Compressed.ReadVec32 | srcstudiomodel/compressed.py:16-23 | reads 4 bytes and returns the vec32 of their word |
| Compressed.Complete | srcstudiomodel/compressed.py:36-38 | keeps x, y, z; fails only with NegativeRadicand |
| Compressed.CompleteUnit | srcstudiomodel/compressed.py:36-38 | w is computed exactly when x² + y² + z² ≤ 1; the quaternion then keeps x, y, z, has norm 1, and w is negative only when the sign is set and positive only when it is clear |
| Compressed.SplitQuat48 | srcstudiomodel/compressed.py:33-37 | x and y are 16-bit fields and z a 15-bit field |
| Compressed.JoinSplitQuat48 | srcstudiomodel/compressed.py:33-37 | every 48-bit word is its fields at bits 0, 16, 32 and the sign at bit 47 |
| Compressed.SplitJoinQuat48 | srcstudiomodel/compressed.py:33-37 | any in-range fields and sign placed at those bits are read back unchanged |
| Compressed.Quat48Xyz | srcstudiomodel/compressed.py:32-35 | x, y lie in [-1, 32767/32768] and z in [-1, 16383/16384] |
| Compressed.Quat48 | srcstudiomodel/compressed.py:30-39 | quat48 fails, with NegativeRadicand, exactly when the stored x, y, z lie outside the unit ball, and otherwise keeps them |
| Compressed.Quat48Unit | srcstudiomodel/compressed.py:30-39 | quat48 succeeds exactly when the stored x, y, z lie in the unit ball, keeping them, with norm 1 and w negative only with bit 47 set and positive only with it clear; otherwise it fails with NegativeRadicand |
| Compressed.Quat48OfZero | srcstudiomodel/compressed.py:33-36 | the all-zero word stores x = y = z = -1 and quat48 fails on it |
| Compressed.ReadQuat48 | srcstudiomodel/compressed.py:30-39 | reads 6 bytes and returns quat48 of their word |
| Compressed.SplitQuat64 | srcstudiomodel/compressed.py:45-49 | x, y and z are 21-bit fields |
| Compressed.JoinSplitQuat64 | srcstudiomodel/compressed.py:45-49 | every 64-bit word is its fields at bits 0, 21, 42 and the sign at bit 63 |
| Compressed.SplitJoinQuat64 | srcstudiomodel/compressed.py:45-49 | any in-range fields and sign placed at those bits are read back unchanged |
| Compressed.Quat64Xyz | srcstudiomodel/compressed.py:44-47 | `(f - 1048576) / 1048576.5` lies strictly inside (-1, 1) |
| Compressed.Quat64 | srcstudiomodel/compressed.py:42-51 | quat64 fails, with NegativeRadicand, exactly when the stored x, y, z lie outside the unit ball, and otherwise keeps them |
| Compressed.Quat64Unit | srcstudiomodel/compressed.py:42-51 | quat64 succeeds exactly when the stored x, y, z lie in the unit ball, keeping them, with norm 1 and w negative only with bit 63 set and positive only with it clear; otherwise it fails with NegativeRadicand |
| Compressed.ReadQuat64 | srcstudiomodel/compressed.py:42-51 | reads 8 bytes and returns quat64 of their word |

## Left out

- vec48 (`'=eee'`, three half-precision floats) is not modelled: it is float decoding, not bit-field work.
- Floating point is not modelled. Every `f` field (VVD weights, positions,
  normals, texture coordinates and tangents; `VTXModelLOD.switch_point`) is
  kept as its raw 32-bit pattern. The codec's components are exact reals, so
  the rounding of `1.0 / 1048576.5` and of each multiplication is not captured.
- Compressed.CompleteUnit: the square root is a parameter constrained only to
  give the non-negative root, because `math.sqrt` is a foreign call. Norm 1 is
  exact in reals, not within a float tolerance.
- Mdl.MdlFields: the name is kept as bytes with trailing NULs removed; the
  UTF-8 decoding is not modelled, so a name whose bytes are not valid UTF-8
  reads here while the source raises `UnicodeDecodeError`. NUL is a
  single byte in UTF-8, so trimming bytes and trimming the decoded string agree
  on valid names.
- The `'c'` fields of a bone weight are kept as byte values, not one-byte `bytes` objects.
- `MDL.texture_names` is declared but never assigned by the constructor, so the model has no such field.
- `_MAX_NUM_BONES_PER_VERT` and `_MAX_NUM_LODS` come from `const.py`, which is
  not part of this model. They are the constants 3 and 8 in `Consts`.
- The record sizes `Vtx.VertexSize`, `Vvd.LodCountsSize`, `Vvd.BoneWeightSize`
  and `Vvd.VertexSize` are written as the byte counts for the values 3 and 8 (12, 32, 16 and 48).
  `Vtx.FormatSizes`, `Vvd.FormatSizes` and `Vvd.BoneWeightFormatSize` tie them to
  the formats built from the constants, so for other values those lemmas fail
  rather than the model silently mis-sizing a record.
- `mdl_enum.py` (flag constants only), `type.py` (type aliases only) and
  `__init__.py` (re-exports, including `MDLBone`, which nothing defines) are not
  modelled: they have no behaviour.
- `BufferedReader` is an immutable byte sequence and a position: no file
  I/O, buffering or OS errors. A read of the name or of a codec word past
  the end returns fewer bytes, as `buf.read` does. A codec word read short is
  the value of the bytes that are there.
- Integer widths need no wrap-around: Python integers are unbounded, and
  every value the readers compute fits in its field.
