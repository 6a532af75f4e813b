/** struct.unpack with the '=' prefix (standard sizes, no alignment padding,
    little-endian host) and the count-driven record tables built on it. */
module Util {
  import opened Bytes
  import opened Wrappers
  import opened Cursors

  /** The struct format codes the readers use: B c h H i I f. */
  datatype Code = UInt8 | Char | Int16 | UInt16 | Int32 | UInt32 | Float32

  /** Standard size of one code under '='. */
  function CodeSize(c: Code): nat
  {
    match c
    case UInt8 | Char => 1
    case Int16 | UInt16 => 2
    case Int32 | UInt32 | Float32 => 4
  }

  /** The values a code can produce ('c' as its byte value, 'f' as its raw bit pattern). */
  predicate InRange(c: Code, v: int)
  {
    match c
    case UInt8 | Char => 0 <= v < 0x100
    case UInt16 => 0 <= v < 0x1_0000
    case Int16 => -0x8000 <= v < 0x8000
    case UInt32 | Float32 => 0 <= v < 0x1_0000_0000
    case Int32 => -0x8000_0000 <= v < 0x8000_0000
  }

  function DecodeField(c: Code, b: seq<byte>): (v: int)
    requires |b| == CodeSize(c)
    ensures InRange(c, v)
  {
    assert Pow256(1) == 0x100 && Pow256(2) == 0x1_0000 && Pow256(4) == 0x1_0000_0000;
    if c == Int16 || c == Int32 then TwosComplement(LittleEndian(b), |b|) else LittleEndian(b)
  }

  /** A decoded field keeps the field's bits: the value is the little-endian
      unsigned value, or that value minus 2^(8n) for a negative signed field. */
  lemma DecodeFieldBits(c: Code, b: seq<byte>)
    requires |b| == CodeSize(c)
    ensures var v := DecodeField(c, b);
            LittleEndian(b) == if v < 0 then v + Pow256(|b|) else v
    ensures c !in {Int16, Int32} ==> DecodeField(c, b) == LittleEndian(b)
  {
  }

  /** struct.calcsize of a '=' format (summed from the last code back). */
  function FormatSize(fmt: seq<Code>): (n: nat)
    ensures |fmt| <= n <= 4 * |fmt|
  {
    if |fmt| == 0 then 0 else FormatSize(fmt[..|fmt| - 1]) + CodeSize(fmt[|fmt| - 1])
  }

  /** struct.unpack of exactly FormatSize(fmt) bytes: one value per code, the
      last code decoded from the last bytes. */
  function Unpack(fmt: seq<Code>, b: seq<byte>): (vals: seq<int>)
    requires |b| == FormatSize(fmt)
    ensures |vals| == |fmt|
  {
    if |fmt| == 0 then []
    else
      var k := CodeSize(fmt[|fmt| - 1]);
      Unpack(fmt[..|fmt| - 1], b[..|b| - k]) + [DecodeField(fmt[|fmt| - 1], b[|b| - k..])]
  }

  /** What _struct_unpack(fmt, buf) returns with buf at position p. */
  function UnpackAt(data: seq<byte>, p: nat, fmt: seq<Code>): (r: Result<seq<int>>)
    ensures r.Ok? <==> FormatSize(fmt) == 0 || p + FormatSize(fmt) <= |data|
    ensures r.Err? ==> r.error == Truncated
    ensures r.Ok? ==> |r.value| == |fmt|
  {
    var b := ReadAt(data, p, FormatSize(fmt));
    if |b| < FormatSize(fmt) then Err(Truncated) else Ok(Unpack(fmt, b))
  }

  /** _struct_unpack: reads calcsize(fmt) bytes and unpacks them; a short read fails. */
  method StructUnpack(fmt: seq<Code>, buf: Cursor) returns (r: Result<seq<int>>)
    modifies buf
    ensures r == UnpackAt(buf.data, old(buf.pos), fmt)
    ensures r.Ok? ==> buf.pos == old(buf.pos) + FormatSize(fmt)
  {
    var b := buf.Read(FormatSize(fmt));
    if |b| < FormatSize(fmt) {
      return Err(Truncated);
    }
    return Ok(Unpack(fmt, b));
  }

  /** Sizes add up under concatenation of formats. */
  lemma {:induction false} FormatSizeAppend(a: seq<Code>, b: seq<Code>)
    ensures FormatSize(a + b) == FormatSize(a) + FormatSize(b)
    decreases |b|
  {
    if |b| == 0 {
      assert a + b == a;
    } else {
      var n := |b| - 1;
      assert (a + b)[..|a + b| - 1] == a + b[..n];
      assert (a + b)[|a + b| - 1] == b[n];
      FormatSizeAppend(a, b[..n]);
    }
  }

  /** Every unpacked value lies in its code's range. */
  lemma {:induction false} UnpackInRange(fmt: seq<Code>, b: seq<byte>)
    requires |b| == FormatSize(fmt)
    ensures forall i :: 0 <= i < |fmt| ==> InRange(fmt[i], Unpack(fmt, b)[i])
    decreases |fmt|
  {
    if |fmt| > 0 {
      var n, k := |fmt| - 1, CodeSize(fmt[|fmt| - 1]);
      UnpackInRange(fmt[..n], b[..|b| - k]);
      var vals := Unpack(fmt, b);
      forall i | 0 <= i < |fmt|
        ensures InRange(fmt[i], vals[i])
      {
        if i < n {
          assert vals[i] == Unpack(fmt[..n], b[..|b| - k])[i];
          assert fmt[i] == fmt[..n][i];
        }
      }
    }
  }

  /** Bytes taken by the first i codes of a format, summed by position. */
  function PrefixSize(fmt: seq<Code>, i: nat): nat
    requires i <= |fmt|
  {
    if i == 0 then 0 else PrefixSize(fmt, i - 1) + CodeSize(fmt[i - 1])
  }

  /** The size of the first i codes, as a format of its own, is PrefixSize(fmt, i). */
  lemma {:induction false} PrefixSizeIsFormatSize(fmt: seq<Code>, i: nat)
    requires i <= |fmt|
    ensures FormatSize(fmt[..i]) == PrefixSize(fmt, i)
  {
    if i > 0 {
      PrefixSizeIsFormatSize(fmt, i - 1);
      assert fmt[..i][..i - 1] == fmt[..i - 1];
    }
  }

  /** struct.calcsize summed by position; this form evaluates on a written-out format. */
  lemma FormatSizeByPosition(fmt: seq<Code>)
    ensures FormatSize(fmt) == PrefixSize(fmt, |fmt|)
  {
    PrefixSizeIsFormatSize(fmt, |fmt|);
    assert fmt[..|fmt|] == fmt;
  }

  /** The i-th value is decoded from the bytes between PrefixSize(fmt, i) and
      PrefixSize(fmt, i + 1): fields are packed in order with no padding. */
  lemma UnpackField(fmt: seq<Code>, b: seq<byte>, i: nat)
    requires |b| == FormatSize(fmt) && i < |fmt|
    ensures PrefixSize(fmt, i + 1) <= |b|
    ensures Unpack(fmt, b)[i] == DecodeField(fmt[i], b[PrefixSize(fmt, i)..PrefixSize(fmt, i + 1)])
  {
    FieldBytesAt(fmt, b, i);
    UnpackFieldBytes(fmt, b, i);
  }

  /** The bytes each code of a format is decoded from, split off the end like Unpack does. */
  function FieldBytes(fmt: seq<Code>, b: seq<byte>): (fs: seq<seq<byte>>)
    requires |b| == FormatSize(fmt)
    ensures |fs| == |fmt|
  {
    if |fmt| == 0 then []
    else
      var k := CodeSize(fmt[|fmt| - 1]);
      FieldBytes(fmt[..|fmt| - 1], b[..|b| - k]) + [b[|b| - k..]]
  }

  /** Value i of Unpack is code i decoded from bytes i of FieldBytes. */
  lemma {:induction false} UnpackFieldBytes(fmt: seq<Code>, b: seq<byte>, i: nat)
    requires |b| == FormatSize(fmt) && i < |fmt|
    ensures |FieldBytes(fmt, b)[i]| == CodeSize(fmt[i])
    ensures Unpack(fmt, b)[i] == DecodeField(fmt[i], FieldBytes(fmt, b)[i])
    decreases |fmt|
  {
    var n, k := |fmt| - 1, CodeSize(fmt[|fmt| - 1]);
    if i < n {
      UnpackFieldBytes(fmt[..n], b[..|b| - k], i);
      assert fmt[..n][i] == fmt[i];
    }
  }

  /** Bytes i of FieldBytes lie between PrefixSize(fmt, i) and PrefixSize(fmt, i + 1). */
  lemma {:induction false} FieldBytesAt(fmt: seq<Code>, b: seq<byte>, i: nat)
    requires |b| == FormatSize(fmt) && i < |fmt|
    ensures PrefixSize(fmt, i + 1) <= |b|
    ensures FieldBytes(fmt, b)[i] == b[PrefixSize(fmt, i)..PrefixSize(fmt, i + 1)]
    decreases |fmt|
  {
    var n, k := |fmt| - 1, CodeSize(fmt[|fmt| - 1]);
    if i == n {
      LastFieldSlice(fmt, |b|);
      assert b[|b| - k..|b|] == b[|b| - k..] by { assert b[..|b|] == b; }
    } else {
      FieldBytesFront(fmt, b, i);
      FieldBytesAt(fmt[..n], b[..|b| - k], i);
      FieldBytesOfFront(fmt, b, i);
    }
  }

  /** The last code of a format of n bytes takes its last CodeSize bytes. */
  lemma LastFieldSlice(fmt: seq<Code>, n: nat)
    requires n == FormatSize(fmt) && |fmt| > 0
    ensures PrefixSize(fmt, |fmt|) == n
    ensures PrefixSize(fmt, |fmt| - 1) == n - CodeSize(fmt[|fmt| - 1])
  {
    FormatSizeByPosition(fmt);
  }

  /** Bytes i before the last code are bytes i of the front codes over the front bytes. */
  lemma FieldBytesFront(fmt: seq<Code>, b: seq<byte>, i: nat)
    requires |b| == FormatSize(fmt) && i < |fmt| - 1
    ensures var n, k := |fmt| - 1, CodeSize(fmt[|fmt| - 1]);
            k <= |b| && |b[..|b| - k]| == FormatSize(fmt[..n]) &&
            FieldBytes(fmt, b)[i] == FieldBytes(fmt[..n], b[..|b| - k])[i]
  {
  }

  /** Bytes located in the front codes and bytes are located in the whole. */
  lemma FieldBytesOfFront(fmt: seq<Code>, b: seq<byte>, i: nat)
    requires |b| == FormatSize(fmt) && i < |fmt| - 1
    requires var n, k := |fmt| - 1, CodeSize(fmt[|fmt| - 1]);
             k <= |b| && |b[..|b| - k]| == FormatSize(fmt[..n]) &&
             PrefixSize(fmt[..n], i + 1) <= |b| - k &&
             FieldBytes(fmt, b)[i] == FieldBytes(fmt[..n], b[..|b| - k])[i] &&
             FieldBytes(fmt[..n], b[..|b| - k])[i] ==
               b[..|b| - k][PrefixSize(fmt[..n], i)..PrefixSize(fmt[..n], i + 1)]
    ensures PrefixSize(fmt, i + 1) <= |b|
    ensures FieldBytes(fmt, b)[i] == b[PrefixSize(fmt, i)..PrefixSize(fmt, i + 1)]
  {
    var n, k := |fmt| - 1, CodeSize(fmt[|fmt| - 1]);
    PrefixSizeOfFront(fmt, n, i);
    PrefixSizeOfFront(fmt, n, i + 1);
    SliceOfPrefix(b, |b| - k, PrefixSize(fmt, i), PrefixSize(fmt, i + 1));
  }

  /** The first j codes of a format weigh the same in any longer prefix of it. */
  lemma {:induction false} PrefixSizeOfFront(fmt: seq<Code>, m: nat, j: nat)
    requires j <= m <= |fmt|
    ensures PrefixSize(fmt[..m], j) == PrefixSize(fmt, j)
  {
    if j > 0 {
      PrefixSizeOfFront(fmt, m, j - 1);
      assert fmt[..m][j - 1] == fmt[j - 1];
    }
  }

  lemma SliceOfPrefix(b: seq<byte>, m: nat, lo: nat, hi: nat)
    requires lo <= hi <= m <= |b|
    ensures b[..m][lo..hi] == b[lo..hi]
  {
  }

  /** n copies of one code, as in '=' + 'f' * n. */
  function Repeat(c: Code, n: nat): (fmt: seq<Code>)
    ensures |fmt| == n && forall i :: 0 <= i < n ==> fmt[i] == c
  {
    if n == 0 then [] else Repeat(c, n - 1) + [c]
  }

  lemma {:induction false} FormatSizeRepeat(c: Code, n: nat)
    ensures FormatSize(Repeat(c, n)) == n * CodeSize(c)
  {
    if n > 0 {
      var fmt := Repeat(c, n);
      FormatSizeRepeat(c, n - 1);
      assert fmt[..n - 1] == Repeat(c, n - 1);
      assert (n - 1) * CodeSize(c) + CodeSize(c) == n * CodeSize(c);
    }
  }

  // ---- count-driven tables: list(map(read, [buf] * count)) ----

  /** The length of [x] * n in Python: a negative count gives an empty list. */
  function Count(n: int): nat
  {
    if n < 0 then 0 else n
  }

  /** Where record i of a table of size-byte records starting at base begins. */
  function Slot(base: nat, i: nat, size: nat): nat
  {
    base + i * size
  }

  /** buf.seek(target) followed by a table of count records: a negative target fails the seek. */
  ghost function TableAt<T>(data: seq<byte>, target: int, count: int, size: nat,
                            read: (seq<byte>, nat) -> Result<T>): (r: Result<seq<T>>)
    ensures r.Ok? ==> target >= 0 && |r.value| == Count(count)
  {
    var base :- SeekTarget(target);
    Records(data, base, count, size, read)
  }

  /** Every one of the first n records at base, size bytes apart, reads. */
  ghost predicate AllRead<T>(data: seq<byte>, base: nat, n: nat, size: nat, read: (seq<byte>, nat) -> Result<T>)
  {
    forall i :: 0 <= i < n ==> read(data, Slot(base, i, size)).Ok?
  }

  /** When not every record reads, there is a first one that fails. */
  lemma {:induction false} FirstFailure<T>(data: seq<byte>, base: nat, n: nat, size: nat,
                                           read: (seq<byte>, nat) -> Result<T>)
    requires !AllRead(data, base, n, size, read)
    ensures exists k :: 0 <= k < n && read(data, Slot(base, k, size)).Err? && AllRead(data, base, k, size, read)
  {
    if AllRead(data, base, n - 1, size, read) {
      assert read(data, Slot(base, n - 1, size)).Err?;
    } else {
      FirstFailure(data, base, n - 1, size, read);
    }
  }

  /** count records of size bytes each, record i at Slot(base, i, size); the
      first failing record fails the whole table. A negative count reads none. */
  ghost function Records<T>(data: seq<byte>, base: nat, count: int, size: nat,
                            read: (seq<byte>, nat) -> Result<T>): (r: Result<seq<T>>)
    ensures r.Ok? ==> |r.value| == Count(count)
  {
    var n := Count(count);
    if AllRead(data, base, n, size, read) then
      Ok(seq(n, i requires 0 <= i < n => read(data, Slot(base, i, size)).value))
    else
      FirstFailure(data, base, n, size, read);
      var k :| 0 <= k < n && read(data, Slot(base, k, size)).Err? && AllRead(data, base, k, size, read);
      Err(read(data, Slot(base, k, size)).error)
  }

  /** The reading order of list(map(f, [buf] * count)): one record after the
      other, stopping at the first failure. */
  ghost function ReadInOrder<T>(data: seq<byte>, base: nat, count: int, size: nat,
                                read: (seq<byte>, nat) -> Result<T>): (r: Result<seq<T>>)
    decreases count
  {
    if count <= 0 then Ok([])
    else
      var init :- ReadInOrder(data, base, count - 1, size, read);
      var last :- read(data, Slot(base, count - 1, size));
      Ok(init + [last])
  }

  /** The table read record by record is the table described position by position. */
  lemma {:induction false} ReadInOrderIsRecords<T>(data: seq<byte>, base: nat, count: int, size: nat,
                                                   read: (seq<byte>, nat) -> Result<T>)
    ensures ReadInOrder(data, base, count, size, read) == Records(data, base, count, size, read)
    decreases count
  {
    if count > 0 {
      ReadInOrderIsRecords(data, base, count - 1, size, read);
      var init := Records(data, base, count - 1, size, read);
      var last := read(data, Slot(base, count - 1, size));
      if init.Ok? && last.Ok? {
        RecordsSnoc(data, base, count - 1, size, read, init.value, last.value);
      } else if init.Ok? {
        RecordsStopsAtError(data, base, count, size, read, count - 1);
      } else {
        RecordsFailurePersists(data, base, count - 1, size, read);
      }
    }
  }

  /** A failing table stays failing, with the same error, when one more record is asked for. */
  lemma RecordsFailurePersists<T>(data: seq<byte>, base: nat, count: nat, size: nat,
                                  read: (seq<byte>, nat) -> Result<T>)
    requires Records(data, base, count, size, read).Err?
    ensures Records(data, base, count + 1, size, read) == Records(data, base, count, size, read)
  {
    FirstFailure(data, base, count, size, read);
    var k :| 0 <= k < count && read(data, Slot(base, k, size)).Err? && AllRead(data, base, k, size, read);
    RecordsStopsAtError(data, base, count, size, read, k);
    RecordsStopsAtError(data, base, count + 1, size, read, k);
  }

  /** A table is read exactly when every record is, and record i is the one at Slot(base, i, size). */
  lemma RecordsLayout<T>(data: seq<byte>, base: nat, count: int, size: nat,
                         read: (seq<byte>, nat) -> Result<T>)
    ensures Records(data, base, count, size, read).Ok? <==>
            forall i: nat :: i < count ==> read(data, Slot(base, i, size)).Ok?
    ensures Records(data, base, count, size, read).Ok? ==>
            forall i: nat :: i < count ==> read(data, Slot(base, i, size)) == Ok(Records(data, base, count, size, read).value[i])
  {
  }

  /** Reading record i after a table of i records extends that table by one. */
  lemma RecordsSnoc<T>(data: seq<byte>, base: nat, i: nat, size: nat,
                       read: (seq<byte>, nat) -> Result<T>, items: seq<T>, item: T)
    requires Records(data, base, i, size, read) == Ok(items)
    requires read(data, Slot(base, i, size)) == Ok(item)
    ensures Records(data, base, i + 1, size, read) == Ok(items + [item])
  {
    assert AllRead(data, base, i, size, read);
    assert items == seq(i, k requires 0 <= k < i => read(data, Slot(base, k, size)).value);
    assert AllRead(data, base, i + 1, size, read);
    var all := seq(i + 1, k requires 0 <= k < i + 1 => read(data, Slot(base, k, size)).value);
    assert Records(data, base, i + 1, size, read) == Ok(all);
    assert all == items + [item];
  }

  /** If records 0..i-1 read and record i fails, the table fails with record i's error. */
  lemma RecordsStopsAtError<T>(data: seq<byte>, base: nat, count: int, size: nat,
                               read: (seq<byte>, nat) -> Result<T>, i: nat)
    requires i < count
    requires Records(data, base, i, size, read).Ok?
    requires read(data, Slot(base, i, size)).Err?
    ensures Records(data, base, count, size, read) == Err(read(data, Slot(base, i, size)).error)
  {
    assert AllRead(data, base, i, size, read);
    assert !AllRead(data, base, count, size, read);
  }

  /** _struct_unpack(single code, buf)[0] at position p. */
  function FieldAt(data: seq<byte>, p: nat, c: Code): (r: Result<int>)
    ensures r.Ok? <==> p + CodeSize(c) <= |data|
    ensures r.Ok? ==> InRange(c, r.value)
  {
    assert FormatSize([c]) == CodeSize(c);
    var v :- UnpackAt(data, p, [c]);
    Ok(v[0])
  }

  /** A single field is decoded from the CodeSize(c) bytes at p. */
  lemma FieldAtValue(data: seq<byte>, p: nat, c: Code)
    requires p + CodeSize(c) <= |data|
    ensures FieldAt(data, p, c) == Ok(DecodeField(c, data[p..p + CodeSize(c)]))
  {
    assert FormatSize([c]) == CodeSize(c);
    var b := ReadAt(data, p, CodeSize(c));
    assert b == data[p..p + CodeSize(c)] && b[..CodeSize(c)] == b;
  }

  /** The record reader `lambda _: _struct_unpack(code, buf)[0]`. */
  function FieldReader(c: Code): (seq<byte>, nat) -> Result<int>
  {
    (data: seq<byte>, p: nat) => FieldAt(data, p, c)
  }

  /** The record reader `lambda _: _struct_unpack(fmt, buf)`. */
  function UnpackReader(fmt: seq<Code>): (seq<byte>, nat) -> Result<seq<int>>
  {
    (data: seq<byte>, p: nat) => UnpackAt(data, p, fmt)
  }

  /** Every record of a table of struct tuples has one value per code of the format. */
  lemma UnpackTableShape(data: seq<byte>, base: nat, count: int, fmt: seq<Code>)
    requires Records(data, base, count, FormatSize(fmt), UnpackReader(fmt)).Ok?
    ensures var rows := Records(data, base, count, FormatSize(fmt), UnpackReader(fmt)).value;
            forall i :: 0 <= i < |rows| ==> |rows[i]| == |fmt|
  {
    var rows := Records(data, base, count, FormatSize(fmt), UnpackReader(fmt)).value;
    forall i | 0 <= i < |rows|
      ensures |rows[i]| == |fmt|
    {
      assert UnpackReader(fmt)(data, Slot(base, i, FormatSize(fmt))).Ok?;
    }
  }

  /** A negative count reads no records, like a count of zero. */
  lemma RecordsCount<T>(data: seq<byte>, base: nat, count: int, size: nat,
                        read: (seq<byte>, nat) -> Result<T>)
    ensures Records(data, base, count, size, read) == Records(data, base, Count(count), size, read)
  {
  }

  /** A table at a target that is not negative is the table of records at that target. */
  lemma TableAtRecords<T>(data: seq<byte>, base: nat, count: int, size: nat,
                          read: (seq<byte>, nat) -> Result<T>)
    ensures TableAt(data, base, count, size, read) == Records(data, base, Count(count), size, read)
  {
    RecordsCount(data, base, count, size, read);
  }

  /** Record i of a table that reads is the record at target + i * size. */
  lemma TableAtLayout<T>(data: seq<byte>, target: int, count: int, size: nat,
                         read: (seq<byte>, nat) -> Result<T>, i: nat)
    requires TableAt(data, target, count, size, read).Ok?
    requires i < |TableAt(data, target, count, size, read).value|
    ensures target >= 0
    ensures read(data, target + i * size) == Ok(TableAt(data, target, count, size, read).value[i])
  {
    TableAtRecords(data, target, count, size, read);
    RecordsLayout(data, target, Count(count), size, read);
    assert read(data, Slot(target, i, size)) == Ok(Records(data, target, Count(count), size, read).value[i]);
  }

  /** One step of reading a table: record i either extends the records read so
      far or decides the error of the whole table. */
  lemma TableStep<T>(data: seq<byte>, base: nat, count: int, size: nat,
                     read: (seq<byte>, nat) -> Result<T>, i: nat, items: seq<T>, item: Result<T>)
    requires i < count
    requires Records(data, base, i, size, read) == Ok(items)
    requires read(data, Slot(base, i, size)) == item
    ensures item.Err? ==> Records(data, base, Count(count), size, read) == Err(item.error)
    ensures item.Ok? ==> Records(data, base, i + 1, size, read) == Ok(items + [item.value])
    ensures Slot(base, i + 1, size) == Slot(base, i, size) + size
  {
    if item.Err? {
      RecordsStopsAtError(data, base, count, size, read, i);
    } else {
      RecordsSnoc(data, base, i, size, read, items, item.value);
    }
  }

  /** _struct_unpack(single code, buf)[0]: one field read through the cursor. */
  method ReadField(c: Code, buf: Cursor) returns (r: Result<int>)
    modifies buf
    ensures r == FieldAt(buf.data, old(buf.pos), c)
    ensures r.Ok? ==> buf.pos == old(buf.pos) + CodeSize(c)
  {
    assert FormatSize([c]) == CodeSize(c);
    var v := StructUnpack([c], buf);
    if v.Err? {
      return Err(v.error);
    }
    return Ok(v.value[0]);
  }

  /** list(map(lambda _: _struct_unpack(code, buf)[0], range(count))) */
  method ReadFields(c: Code, count: int, buf: Cursor) returns (r: Result<seq<int>>)
    modifies buf
    ensures r == Records(buf.data, old(buf.pos), count, CodeSize(c), FieldReader(c))
    ensures r.Ok? ==> buf.pos == Slot(old(buf.pos), Count(count), CodeSize(c))
  {
    ghost var base := buf.pos;
    RecordsCount(buf.data, base, count, CodeSize(c), FieldReader(c));
    var values: seq<int> := [];
    var i := 0;
    while i < count
      invariant 0 <= i <= Count(count)
      invariant buf.pos == Slot(base, i, CodeSize(c))
      invariant Records(buf.data, base, i, CodeSize(c), FieldReader(c)) == Ok(values)
    {
      var v := ReadField(c, buf);
      assert FieldReader(c)(buf.data, Slot(base, i, CodeSize(c))) == v;
      TableStep(buf.data, base, count, CodeSize(c), FieldReader(c), i, values, v);
      if v.Err? {
        return Err(v.error);
      }
      values := values + [v.value];
      i := i + 1;
    }
    assert i == Count(count);
    return Ok(values);
  }

  /** list(map(lambda _: _struct_unpack(fmt, buf), range(count))) */
  method ReadUnpacks(fmt: seq<Code>, count: int, buf: Cursor) returns (r: Result<seq<seq<int>>>)
    modifies buf
    ensures r == Records(buf.data, old(buf.pos), count, FormatSize(fmt), UnpackReader(fmt))
    ensures r.Ok? ==> buf.pos == Slot(old(buf.pos), Count(count), FormatSize(fmt))
  {
    ghost var base := buf.pos;
    RecordsCount(buf.data, base, count, FormatSize(fmt), UnpackReader(fmt));
    var tuples: seq<seq<int>> := [];
    var i := 0;
    while i < count
      invariant 0 <= i <= Count(count)
      invariant buf.pos == Slot(base, i, FormatSize(fmt))
      invariant Records(buf.data, base, i, FormatSize(fmt), UnpackReader(fmt)) == Ok(tuples)
    {
      var t := StructUnpack(fmt, buf);
      TableStep(buf.data, base, count, FormatSize(fmt), UnpackReader(fmt), i, tuples, t);
      if t.Err? {
        return Err(t.error);
      }
      tuples := tuples + [t.value];
      i := i + 1;
    }
    assert i == Count(count);
    return Ok(tuples);
  }
}
