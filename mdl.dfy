/** The MDL reader: only the fixed header of a studio model file.  The id
    "IDST", version and checksum, a 64-byte NUL-padded name, 76 skipped bytes
    and the flags word; nothing after the flags is read. */
module Mdl {
  import opened Bytes
  import opened Wrappers
  import opened Cursors
  import opened Util

  /** The id field of an MDL header: the bytes "IDST" read as a little-endian u32. */
  const MdlId: int := 0x5453_4449

  const MdlHeader: seq<Code> := [UInt32, UInt32, UInt32]   // '=III'
  const MdlHeaderSize: nat := 12
  const NameLength: nat := 64
  /** The relative seek between the name and the flags. */
  const SkipLength: nat := 76
  /** start + 12 + 64 + 76: where the flags word is. */
  const FlagsOffset: nat := 152
  /** The bytes a successful read consumes. */
  const MdlSize: nat := 156

  lemma HeaderSize()
    ensures FormatSize(MdlHeader) == MdlHeaderSize
    ensures FlagsOffset == MdlHeaderSize + NameLength + SkipLength
    ensures MdlSize == FlagsOffset + CodeSize(UInt32)
  {
    FormatSizeByPosition(MdlHeader);
    assert |MdlHeader| == 3;
  }

  /** name: the raw bytes of the name field; the UTF-8 decoding is not modelled. */
  datatype Mdl = Mdl(version: int, checksum: int, name: seq<byte>, flags: int)

  /** rstrip('\0'): drops every NUL at the end and keeps everything before. */
  function TrimTrailingNuls(s: seq<byte>): (t: seq<byte>)
    ensures |t| <= |s| && t == s[..|t|]
    ensures t == [] || t[|t| - 1] != 0
    ensures forall i :: |t| <= i < |s| ==> s[i] == 0
  {
    if |s| == 0 || s[|s| - 1] != 0 then s else TrimTrailingNuls(s[..|s| - 1])
  }

  /** The trimmed name is the only prefix that drops nothing but a run of
      trailing NULs and does not itself end in NUL. */
  lemma TrimTrailingNulsUnique(s: seq<byte>, t: seq<byte>)
    requires |t| <= |s| && t == s[..|t|]
    requires t == [] || t[|t| - 1] != 0
    requires forall i :: |t| <= i < |s| ==> s[i] == 0
    ensures t == TrimTrailingNuls(s)
  {
    var u := TrimTrailingNuls(s);
    assert t != [] ==> s[|t| - 1] != 0;
    assert u != [] ==> s[|u| - 1] != 0;
    assert |t| == |u|;
  }

  /** Trimming again changes nothing. */
  lemma TrimTrailingNulsIdempotent(s: seq<byte>)
    ensures TrimTrailingNuls(TrimTrailingNuls(s)) == TrimTrailingNuls(s)
  {
    var t := TrimTrailingNuls(s);
    TrimTrailingNulsUnique(t, t);
  }

  /** MDL.__init__ with the stream at p, and where it leaves the cursor.  A
      short name read does not fail by itself; the flags read after the skip does. */
  function MdlAt(data: seq<byte>, p: nat): (r: Result<(Mdl, nat)>)
    ensures r.Ok? ==> p + MdlSize <= |data| && r.value.1 == p + MdlSize && |r.value.0.name| <= NameLength
    ensures r.Err? ==> r.error == Truncated || r.error.BadMagic?
  {
    HeaderSize();
    var h :- UnpackAt(data, p, MdlHeader);
    if h[0] != MdlId then Err(BadMagic(MdlId, h[0]))
    else
      var nameBytes := ReadAt(data, p + MdlHeaderSize, NameLength);
      var flagsAt := p + MdlHeaderSize + |nameBytes| + SkipLength;
      var flags :- FieldAt(data, flagsAt, UInt32);
      Ok((Mdl(h[1], h[2], TrimTrailingNuls(nameBytes), flags), flagsAt + CodeSize(UInt32)))
  }

  /** The magic number is the four bytes "IDST". */
  lemma MagicBytes(b: seq<byte>)
    requires |b| == 4
    ensures LittleEndian(b) == MdlId <==> b == [0x49, 0x44, 0x53, 0x54]
  {
    var magic: seq<byte> := [0x49, 0x44, 0x53, 0x54];
    assert LittleEndian(magic[3..]) == 0x54;
    assert LittleEndian(magic[2..]) == 0x5453;
    assert LittleEndian(magic[1..]) == 0x54_5344;
    assert LittleEndian(magic) == MdlId;
    LittleEndianInjective(b, magic);
  }

  /** The i-th u32 of the header is the little-endian value of bytes 4i..4i+4. */
  lemma HeaderField(data: seq<byte>, p: nat, i: nat)
    requires p + MdlHeaderSize <= |data| && i < 3
    ensures UnpackAt(data, p, MdlHeader).Ok?
    ensures UnpackAt(data, p, MdlHeader).value[i] == LittleEndian(data[p + 4 * i..p + 4 * i + 4])
  {
    HeaderSize();
    var b := data[p..p + MdlHeaderSize];
    assert ReadAt(data, p, MdlHeaderSize) == b;
    UnpackField(MdlHeader, b, i);
    var lo := 4 * i;
    assert PrefixSize(MdlHeader, i) == lo && PrefixSize(MdlHeader, i + 1) == lo + 4 by {
      assert PrefixSize(MdlHeader, 1) == 4 && PrefixSize(MdlHeader, 2) == 8 && PrefixSize(MdlHeader, 3) == 12;
    }
    SliceOfSlice(data, p, MdlHeaderSize, lo, lo + 4);
    DecodeFieldBits(UInt32, data[p + lo..p + lo + 4]);
  }

  lemma SliceOfSlice(data: seq<byte>, p: nat, n: nat, lo: nat, hi: nat)
    requires p + n <= |data| && lo <= hi <= n
    ensures data[p..p + n][lo..hi] == data[p + lo..p + hi]
  {
    var s, t := data[p..p + n][lo..hi], data[p + lo..p + hi];
    assert |s| == |t|;
    forall k | 0 <= k < |s|
      ensures s[k] == t[k]
    {
      assert s[k] == data[p + lo + k];
    }
  }

  /** An MDL header is read exactly when the data holds 156 bytes from p that
      start with "IDST"; then the reader consumes exactly those 156 bytes. */
  lemma MdlAccepts(data: seq<byte>, p: nat)
    ensures MdlAt(data, p).Ok? <==> p + MdlSize <= |data| && data[p..p + 4] == [0x49, 0x44, 0x53, 0x54]
    ensures MdlAt(data, p).Ok? ==> MdlAt(data, p).value.1 == p + MdlSize
  {
    HeaderSize();
    if p + MdlHeaderSize <= |data| {
      HeaderField(data, p, 0);
      MagicBytes(data[p..p + 4]);
    }
  }

  /** The fields of a header that reads: version and checksum are the u32s at
      p + 4 and p + 8, the name is the 64 bytes at p + 12 with trailing NULs
      removed, and the flags are the u32 at p + 152. */
  lemma MdlFields(data: seq<byte>, p: nat)
    requires MdlAt(data, p).Ok?
    ensures var m := MdlAt(data, p).value.0;
            p + MdlSize <= |data| &&
            m.version == LittleEndian(data[p + 4..p + 8]) &&
            m.checksum == LittleEndian(data[p + 8..p + 12]) &&
            m.name == TrimTrailingNuls(data[p + MdlHeaderSize..p + MdlHeaderSize + NameLength]) &&
            m.flags == LittleEndian(data[p + FlagsOffset..p + MdlSize])
  {
    MdlAccepts(data, p);
    HeaderSize();
    HeaderField(data, p, 1);
    HeaderField(data, p, 2);
    FieldAtValue(data, p + FlagsOffset, UInt32);
    DecodeFieldBits(UInt32, data[p + FlagsOffset..p + MdlSize]);
  }

  /** The name is at most 64 bytes, does not end in NUL, and keeps interior NULs. */
  lemma MdlName(data: seq<byte>, p: nat)
    requires MdlAt(data, p).Ok?
    ensures var name := MdlAt(data, p).value.0.name;
            |name| <= NameLength && (name == [] || name[|name| - 1] != 0) &&
            name == data[p + MdlHeaderSize..p + MdlHeaderSize + |name|]
  {
    MdlFields(data, p);
  }

  /** MDL.__init__ */
  method ReadMdl(buf: Cursor) returns (r: Result<Mdl>)
    modifies buf
    ensures MdlAt(buf.data, old(buf.pos)).Ok? <==> r.Ok?
    ensures r.Err? ==> r.error == MdlAt(buf.data, old(buf.pos)).error
    ensures r.Ok? ==> (r.value, buf.pos) == MdlAt(buf.data, old(buf.pos)).value
  {
    HeaderSize();
    var h :- StructUnpack(MdlHeader, buf);
    if h[0] != MdlId {
      return Err(BadMagic(MdlId, h[0]));
    }
    var nameBytes := buf.Read(NameLength);
    var _ := buf.Seek(SkipLength, FromCurrent);
    var flags :- ReadField(UInt32, buf);
    return Ok(Mdl(h[1], h[2], TrimTrailingNuls(nameBytes), flags));
  }
}
