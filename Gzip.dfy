/** The gzip member written by the accelerator host code: a fixed ten-byte
    header announcing deflate with a file name (section 2.3 of RFC 1952),
    the NUL-terminated name, the compressed bytes, and an eight-byte trailer
    whose CRC field is always zero.  The output stream is a growing byte
    sequence; `stat` becomes the `mtime` and `inputSize` parameters. */
module Gzip {
  import opened Arith

  newtype byte = b: int | 0 <= b < 256

  const Id1: byte := 31
  const Id2: byte := 139
  /** CM: deflate */
  const CmDeflate: byte := 8
  /** FLG: only FNAME is set */
  const FlgFname: byte := 8
  /** XFL: no extra flags */
  const XflNone: byte := 0
  /** OS: Unix */
  const OsUnix: byte := 3

  /** Header and trailer bytes around the name and the payload. */
  const FixedSize := 10 + 1 + 8

  /** The four low-order bytes of x, least significant first, as four
      shift-and-truncate steps (two's complement for negative x). */
  function Le32(x: int): (r: seq<byte>)
    ensures |r| == 4
  {
    [(x % 0x100) as byte, (x / 0x100 % 0x100) as byte,
     (x / 0x1_0000 % 0x100) as byte, (x / 0x100_0000 % 0x100) as byte]
  }

  /** The reader's view of a little-endian 32-bit field. */
  function Le32Value(b: seq<byte>): (v: int)
    requires |b| == 4
    ensures 0 <= v < 0x1_0000_0000
  {
    b[0] as int + 0x100 * (b[1] as int + 0x100 * (b[2] as int + 0x100 * b[3] as int))
  }

  /** Writing a 32-bit field keeps exactly the value modulo 2^32. */
  lemma Le32RoundTrip(x: int)
    ensures Le32Value(Le32(x)) == x % 0x1_0000_0000
  {
    var q1 := x / 0x100;
    var q2 := q1 / 0x100;
    var q3 := q2 / 0x100;
    ModSplit(x, 0x100, 0x100);
    assert x / 0x1_0000 == q2;
    ModSplit(x, 0x1_0000, 0x100);
    assert x / 0x100_0000 == q3;
    ModSplit(x, 0x100, 0x100_0000);
    assert x % 0x1_0000_0000 == (q1 % 0x100_0000) * 0x100 + x % 0x100;
    ModSplit(q1, 0x100, 0x1_0000);
    assert q1 % 0x100_0000 == (q2 % 0x1_0000) * 0x100 + q1 % 0x100;
    ModSplit(q2, 0x100, 0x100);
    assert q2 % 0x1_0000 == (q3 % 0x100) * 0x100 + q2 % 0x100;
  }

  /** Every four bytes are the encoding of their own value. */
  lemma Le32OfValue(b: seq<byte>)
    requires |b| == 4
    ensures Le32(Le32Value(b)) == b
  {
    var v := Le32Value(b);
    var r3 := b[3] as int;
    var r2 := b[2] as int + 0x100 * r3;
    var r1 := b[1] as int + 0x100 * r2;
    assert v == r1 * 0x100 + b[0] as int;
    DivModUnique(v, 0x100, r1, b[0] as int);
    DivModUnique(r1, 0x100, r2, b[1] as int);
    DivModUnique(r2, 0x100, r3, b[2] as int);
    DivModUnique(r3, 0x100, 0, b[3] as int);
    ModSplit(v, 0x100, 0x100);
    ModSplit(v, 0x1_0000, 0x100);
  }

  /** The index of the first NUL byte of s, or |s| when there is none. */
  function NulIndex(s: seq<byte>): (k: nat)
    ensures k <= |s|
    ensures forall j :: 0 <= j < k ==> s[j] != 0
    ensures k < |s| ==> s[k] == 0
  {
    if s == [] then 0
    else if s[0] == 0 then 0
    else 1 + NulIndex(s[1..])
  }

  /** A NUL-free prefix followed by a NUL locates the first NUL. */
  lemma NulIndexAt(s: seq<byte>, k: nat)
    requires k < |s| && s[k] == 0
    requires forall j :: 0 <= j < k ==> s[j] != 0
    ensures NulIndex(s) == k
  {
  }

  /** The characters of a C++ string read up to its first NUL (or its end,
      where `operator[]` yields the terminating NUL). */
  function NameField(name: seq<byte>): (r: seq<byte>)
    ensures |r| <= |name| && r == name[..|r|]
    ensures forall j :: 0 <= j < |r| ==> r[j] != 0
    ensures |r| < |name| ==> name[|r|] == 0
  {
    name[..NulIndex(name)]
  }

  function Header(mtime: int): (r: seq<byte>)
    ensures |r| == 10
  {
    [Id1, Id2, CmDeflate, FlgFname] + Le32(mtime) + [XflNone, OsUnix]
  }

  function Trailer(crc: int, inputSize: int): (r: seq<byte>)
    ensures |r| == 8
  {
    Le32(crc) + Le32(inputSize)
  }

  /** The NUL-terminated name followed by the compressed bytes. */
  function Body(name: seq<byte>, payload: seq<byte>): (r: seq<byte>)
    ensures |r| == |NameField(name)| + 1 + |payload|
  {
    NameField(name) + [0] + payload
  }

  /** The whole gzip member as the writer emits it. */
  function Member(name: seq<byte>, mtime: int, payload: seq<byte>, inputSize: int): seq<byte>
  {
    Header(mtime) + Body(name, payload) + Trailer(0, inputSize)
  }

  /** The header fields: magic, method, flags, time stamp, XFL and OS. */
  lemma MemberHeader(name: seq<byte>, mtime: int, payload: seq<byte>, inputSize: int)
    ensures var m := Member(name, mtime, payload, inputSize);
      && |m| == 10 + |NameField(name)| + 1 + |payload| + 8
      && m[..4] == [Id1, Id2, CmDeflate, FlgFname]
      && Le32Value(m[4..8]) == mtime % 0x1_0000_0000
      && m[8] == XflNone && m[9] == OsUnix
  {
    var m := Member(name, mtime, payload, inputSize);
    assert m[..10] == Header(mtime);
    assert m[4..8] == Le32(mtime);
    Le32RoundTrip(mtime);
  }

  /** After the header: the name, its terminator, then the payload. */
  lemma MemberBody(name: seq<byte>, mtime: int, payload: seq<byte>, inputSize: int)
    ensures var m := Member(name, mtime, payload, inputSize);
      |m| >= FixedSize && m[10..|m| - 8] == NameField(name) + [0] + payload
  {
    var m := Member(name, mtime, payload, inputSize);
    var b := NameField(name) + [0] + payload;
    assert m == Header(mtime) + b + Trailer(0, inputSize);
  }

  /** The trailer: a zero CRC, then the input size modulo 2^32. */
  lemma MemberTrailer(name: seq<byte>, mtime: int, payload: seq<byte>, inputSize: int)
    ensures var m := Member(name, mtime, payload, inputSize);
      && |m| >= FixedSize
      && m[|m| - 8..|m| - 4] == [0, 0, 0, 0]
      && Le32Value(m[|m| - 4..]) == inputSize % 0x1_0000_0000
  {
    var m := Member(name, mtime, payload, inputSize);
    var t := Trailer(0, inputSize);
    assert m[|m| - 8..] == t;
    assert m[|m| - 4..] == Le32(inputSize);
    Le32RoundTrip(inputSize);
  }

  /** What a reader recovers from a member of this writer's shape. */
  datatype Fields = Fields(mtime: int, name: seq<byte>, payload: seq<byte>, crc: int, inputSize: int)

  datatype Option<T> = None | Some(value: T)

  /** Reads a member with FLG = FNAME and XFL = 0, OS = 3: the name runs to
      the first NUL after the header, the payload to the trailer. */
  function Parse(b: seq<byte>): (r: Option<Fields>)
    ensures r.Some? ==> |b| >= FixedSize + |r.value.name| + |r.value.payload|
  {
    if |b| < FixedSize || b[..4] != [Id1, Id2, CmDeflate, FlgFname] || b[8] != XflNone || b[9] != OsUnix then None
    else
      var body := b[10..|b| - 8];
      var k := NulIndex(body);
      if k == |body| then None
      else Some(Fields(Le32Value(b[4..8]), body[..k], body[k + 1..],
                       Le32Value(b[|b| - 8..|b| - 4]), Le32Value(b[|b| - 4..])))
  }

  lemma NameEnds(nm: seq<byte>, payload: seq<byte>)
    requires forall j :: 0 <= j < |nm| ==> nm[j] != 0
    ensures NulIndex(nm + [0] + payload) == |nm|
  {
    var s := nm + [0] + payload;
    forall j | 0 <= j < |nm| ensures s[j] != 0 { assert s[j] == nm[j]; }
    NulIndexAt(s, |nm|);
  }

  /** A reader recovers the name (up to its first NUL), the payload, a zero
      CRC and the low 32 bits of the time stamp and of the input size. */
  lemma {:induction false} ParseMember(name: seq<byte>, mtime: int, payload: seq<byte>, inputSize: int)
    ensures Parse(Member(name, mtime, payload, inputSize))
      == Some(Fields(mtime % 0x1_0000_0000, NameField(name), payload, 0, inputSize % 0x1_0000_0000))
  {
    var m := Member(name, mtime, payload, inputSize);
    var nm := NameField(name);
    MemberHeader(name, mtime, payload, inputSize);
    MemberBody(name, mtime, payload, inputSize);
    MemberTrailer(name, mtime, payload, inputSize);
    var body := m[10..|m| - 8];
    NameEnds(nm, payload);
    assert body[..|nm|] == nm;
    assert body[|nm| + 1..] == payload;
    assert Le32Value(m[|m| - 8..|m| - 4]) == 0;
  }

  /** Conversely, every byte string the reader accepts with a zero CRC is
      exactly the member the writer emits for the fields it recovers. */
  lemma {:induction false} MemberOfParse(b: seq<byte>)
    requires Parse(b).Some? && Parse(b).value.crc == 0
    ensures var f := Parse(b).value; Member(f.name, f.mtime, f.payload, f.inputSize) == b
  {
    var f := Parse(b).value;
    var body := b[10..|b| - 8];
    var k := NulIndex(body);
    assert f.name == body[..k];
    assert NulIndex(f.name) == |f.name|;
    NameWhole(f.name);
    HeaderOfFields(b[..10]);
    assert b[..10][4..8] == b[4..8];
    TrailerOfFields(b[|b| - 8..]);
    assert b[|b| - 8..][..4] == b[|b| - 8..|b| - 4];
    assert b[|b| - 8..][4..] == b[|b| - 4..];
    assert body == f.name + [0] + f.payload;
    Reassemble(b, f.name, f.mtime, f.payload, f.inputSize);
  }

  lemma NameWhole(name: seq<byte>)
    requires NulIndex(name) == |name|
    ensures NameField(name) == name
  {
  }

  lemma Reassemble(b: seq<byte>, name: seq<byte>, mtime: int, payload: seq<byte>, inputSize: int)
    requires |b| >= FixedSize && NameField(name) == name
    requires b[..10] == Header(mtime) && b[10..|b| - 8] == name + [0] + payload
    requires b[|b| - 8..] == Trailer(0, inputSize)
    ensures Member(name, mtime, payload, inputSize) == b
  {
    assert b == b[..10] + b[10..|b| - 8] + b[|b| - 8..];
  }

  lemma HeaderOfFields(h: seq<byte>)
    requires |h| == 10 && h[..4] == [Id1, Id2, CmDeflate, FlgFname] && h[8] == XflNone && h[9] == OsUnix
    ensures Header(Le32Value(h[4..8])) == h
  {
    Le32OfValue(h[4..8]);
  }

  lemma TrailerOfFields(t: seq<byte>)
    requires |t| == 8 && Le32Value(t[..4]) == 0
    ensures Trailer(0, Le32Value(t[4..])) == t
  {
    Le32OfValue(t[..4]);
    Le32OfValue(t[4..]);
  }

  /** The output file: `put` appends one byte, `write` a prefix of a buffer. */
  class OutStream {
    var bytes: seq<byte>

    constructor ()
      ensures bytes == []
    {
      bytes := [];
    }

    method Put(b: byte)
      modifies this
      ensures bytes == old(bytes) + [b]
    {
      bytes := bytes + [b];
    }

    method Write(data: array<byte>, n: nat)
      requires n <= data.Length
      modifies this
      ensures bytes == old(bytes) + data[..n]
    {
      bytes := bytes + data[..n];
    }
  }

  /** Four bytes of x, least significant first, each one a shift of x
      truncated to a byte. */
  method PutLe32(out: OutStream, x: int)
    modifies out
    ensures out.bytes == old(out.bytes) + Le32(x)
  {
    out.Put((x % 0x100) as byte);
    out.Put((x / 0x100 % 0x100) as byte);
    out.Put((x / 0x1_0000 % 0x100) as byte);
    out.Put((x / 0x100_0000 % 0x100) as byte);
  }

  /** Magic, method, flags, time stamp, XFL and OS. */
  method PutHeader(out: OutStream, mtime: int)
    modifies out
    ensures out.bytes == old(out.bytes) + Header(mtime)
  {
    out.Put(Id1);
    out.Put(Id2);
    out.Put(CmDeflate);
    var flags := FlgFname;
    out.Put(flags);
    PutLe32(out, mtime);
    out.Put(XflNone);
    out.Put(OsUnix);
  }

  /** The name's bytes up to its first NUL, then one terminating 0. */
  method PutName(out: OutStream, name: seq<byte>)
    modifies out
    ensures out.bytes == old(out.bytes) + NameField(name) + [0]
  {
    var i := 0;
    while i < |name| && name[i] != 0
      invariant i <= NulIndex(name)
      invariant out.bytes == old(out.bytes) + name[..i]
    {
      out.Put(name[i]);
      i := i + 1;
      assert name[..i] == name[..i - 1] + [name[i - 1]];
    }
    assert i == NulIndex(name);
    out.Put(0);
  }

  /** Appends one gzip member: header, name, the first `enbytes` bytes of
      `zipOut`, a zero CRC and the input size. */
  method Zip(name: seq<byte>, out: OutStream, zipOut: array<byte>, enbytes: nat, mtime: int, inputSize: int)
    requires enbytes <= zipOut.Length
    modifies out
    ensures out.bytes == old(out.bytes) + Member(name, mtime, zipOut[..enbytes], inputSize)
  {
    PutHeader(out, mtime);
    PutName(out, name);
    out.Write(zipOut, enbytes);
    var crc := 0;
    PutLe32(out, crc);
    PutLe32(out, inputSize);
  }

  /** C's `/` on signed integers: the quotient truncated toward zero. */
  function CDiv(a: int, d: int): (q: int)
    requires d > 0
    ensures a >= 0 ==> q == a / d
    ensures a < 0 ==> q == -((-a) / d)
  {
    if a >= 0 then a / d else -((-a) / d)
  }

  const Unit := 4096

  /** The input size rounded up to whole 4 KiB units; with truncating
      division a zero size still yields one unit. */
  function RoundUpToUnit(size: int): (r: int)
  {
    (CDiv(size - 1, Unit) + 1) * Unit
  }

  lemma RoundUpToUnitBounds(size: int)
    requires size >= 0
    ensures var r := RoundUpToUnit(size);
      && r % Unit == 0 && r >= size
      && (size >= 1 ==> r < size + Unit)
      && (size == 0 ==> r == Unit)
  {
    if size >= 1 {
      DivBounds(size - 1, Unit);
    }
  }

  /** The size handed to the kernel for one unit: the rounded-up size,
      clamped to the input size. */
  function UnitSize(inputSize: int): (r: int)
  {
    var sizePerUnit := (inputSize - 1) + 1;
    var rounded := RoundUpToUnit(sizePerUnit);
    if rounded > inputSize then inputSize else rounded
  }

  /** For every non-negative input the clamp undoes the rounding: the unit is
      the whole input. */
  lemma UnitSizeIsInput(inputSize: int)
    requires inputSize >= 0
    ensures UnitSize(inputSize) == inputSize
  {
    RoundUpToUnitBounds(inputSize);
  }
}
