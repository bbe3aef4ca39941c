/** The byte layout of an SPR (System Page Relocatable) image as the `mkspr`
    tool builds it from a raw binary: a 128-byte header carrying psize and
    dsize little-endian, a 128-byte relocation bitmap left all zero, the code
    from offset 256, and zero padding to a whole 128-byte record. */
module Mkspr {
  import opened Bits

  const HeaderSize: nat := 128
  const BitmapSize: nat := 128
  const CodeOffset: nat := 256
  const RecordSize: nat := 128

  /** `x` rounded up to the next multiple of a 128-byte record. */
  function RoundUpRecord(x: nat): nat
  {
    (x + RecordSize - 1) / RecordSize * RecordSize
  }

  /** The rounded size is the least multiple of a record not below `x`. */
  lemma RoundUpRecordLeast(x: nat, y: nat)
    ensures RoundUpRecord(x) % RecordSize == 0
    ensures x <= RoundUpRecord(x) < x + RecordSize
    ensures x <= y && y % RecordSize == 0 ==> RoundUpRecord(x) <= y
  {
    var q := (x + RecordSize - 1) / RecordSize;
    assert RoundUpRecord(x) == q * RecordSize;
    if x <= y && y % RecordSize == 0 {
      assert y == y / RecordSize * RecordSize;
      assert q <= y / RecordSize;
    }
  }

  /** `spr` is the image of `code` with buffer size `bufsize`. */
  ghost predicate IsSprImage(spr: seq<u8>, code: seq<u8>, bufsize: u16)
  {
    && |spr| == RoundUpRecord(CodeOffset + |code|)
    && spr[0] == 0
    && spr[1] == |code| % 0x100
    && spr[2] == |code| / 0x100 % 0x100
    && spr[3] == 0
    && spr[4] == Lo(bufsize)
    && spr[5] == Hi(bufsize)
    && (forall i :: 6 <= i < CodeOffset ==> spr[i] == 0)
    && spr[CodeOffset..CodeOffset + |code|] == code
    && (forall i :: CodeOffset + |code| <= i < |spr| ==> spr[i] == 0)
  }

  /** Appends zeros while `s` is shorter than `target` (the tool's page fill). */
  method ZeroFillTo(s: seq<u8>, target: nat) returns (t: seq<u8>)
    ensures t == if |s| < target then s + seq(target - |s|, _ => 0) else s
  {
    t := s;
    while |t| < target
      invariant |s| <= |t|
      invariant t[..|s|] == s
      invariant forall k :: |s| <= k < |t| ==> t[k] == 0
      invariant |s| < target ==> |t| <= target
      invariant |s| >= target ==> t == s
    {
      t := t + [0];
    }
  }

  /** The layout steps of the tool, in its order: zeroed header with the two
      size fields stored, the bitmap pushed byte by byte, the (never needed)
      page fill, the code appended, then zeros until the size is a multiple
      of 128. */
  method BuildSpr(code: seq<u8>, bufsize: u16) returns (spr: seq<u8>)
    ensures IsSprImage(spr, code, bufsize)
    ensures |spr| % RecordSize == 0
    ensures CodeOffset + |code| <= |spr| < CodeOffset + |code| + RecordSize
  {
    var n := |code|;
    spr := seq(HeaderSize, _ => 0);
    spr := spr[1 := n % 0x100];
    spr := spr[2 := n / 0x100 % 0x100];
    spr := spr[4 := Lo(bufsize)];
    spr := spr[5 := Hi(bufsize)];

    var i := 0;
    while i < BitmapSize
      invariant 0 <= i <= BitmapSize
      invariant |spr| == HeaderSize + i
      invariant spr[0] == 0 && spr[1] == n % 0x100 && spr[2] == n / 0x100 % 0x100
      invariant spr[3] == 0 && spr[4] == Lo(bufsize) && spr[5] == Hi(bufsize)
      invariant forall k :: 6 <= k < |spr| ==> spr[k] == 0
    {
      spr := spr + [0];
      i := i + 1;
    }

    spr := ZeroFillTo(spr, CodeOffset);
    assert |spr| == CodeOffset;

    spr := spr + code;

    RoundUpRecordLeast(CodeOffset + n, 0);
    while |spr| % RecordSize != 0
      invariant CodeOffset + n <= |spr| <= RoundUpRecord(CodeOffset + n)
      invariant spr[0] == 0 && spr[1] == n % 0x100 && spr[2] == n / 0x100 % 0x100
      invariant spr[3] == 0 && spr[4] == Lo(bufsize) && spr[5] == Hi(bufsize)
      invariant forall k :: 6 <= k < CodeOffset ==> spr[k] == 0
      invariant spr[CodeOffset..CodeOffset + n] == code
      invariant forall k :: CodeOffset + n <= k < |spr| ==> spr[k] == 0
      decreases RoundUpRecord(CodeOffset + n) - |spr|
    {
      RoundUpRecordLeast(CodeOffset + n, |spr|);
      spr := spr + [0];
    }
    RoundUpRecordLeast(CodeOffset + n, |spr|);
  }

  /** What a loader reads back from an SPR image: dsize and the psize bytes of code. */
  datatype SprParts = SprParts(dsize: u16, code: seq<u8>)

  /** Reads psize and dsize from the header and takes psize bytes from offset 256. */
  function ParseSpr(img: seq<u8>): (r: Option<SprParts>)
    ensures r.Some? <==> |img| >= CodeOffset && |img| >= CodeOffset + Word(img[2], img[1])
    ensures r.Some? ==> |r.value.code| == Word(img[2], img[1])
  {
    if |img| < CodeOffset then None
    else
      var psize := Word(img[2], img[1]);
      if |img| < CodeOffset + psize then None
      else Some(SprParts(Word(img[5], img[4]), img[CodeOffset..CodeOffset + psize]))
  }

  /** The two little-endian psize bytes give back a size below 64 KiB. */
  lemma SizeBytes(n: nat)
    requires n < 0x1_0000
    ensures Word(n / 0x100 % 0x100, n % 0x100) == n
  {
    assert n / 0x100 < 0x100;
  }

  /** Reading back an image recovers the buffer size and the code exactly,
      as long as the code fits the 16-bit psize field. */
  lemma SprRoundTrip(spr: seq<u8>, code: seq<u8>, bufsize: u16)
    requires IsSprImage(spr, code, bufsize)
    requires |code| < 0x1_0000
    ensures ParseSpr(spr) == Some(SprParts(bufsize, code))
  {
    assert spr[1] == |code| % 0x100 && spr[2] == |code| / 0x100 % 0x100;
    SizeBytes(|code|);
    var psize := Word(spr[2], spr[1]);
    assert psize == |code|;
    assert spr[4] == Lo(bufsize) && spr[5] == Hi(bufsize);
    assert Word(spr[5], spr[4]) == bufsize;
    assert |spr| >= CodeOffset + psize;
    assert spr[CodeOffset..CodeOffset + psize] == code;
  }

  /** The converse: code of 64 KiB or more does not survive the round trip,
      because only the low 16 bits of its length are stored as psize. */
  lemma SprRoundTripOnlyIfShort(spr: seq<u8>, code: seq<u8>, bufsize: u16)
    requires IsSprImage(spr, code, bufsize)
    requires |code| >= 0x1_0000
    ensures ParseSpr(spr) != Some(SprParts(bufsize, code))
  {
    var p := ParseSpr(spr);
    if p.Some? {
      assert |p.value.code| == Word(spr[2], spr[1]);
      assert Word(spr[2], spr[1]) < 0x1_0000;
    }
  }

  /** The layout leaves no freedom: two images of the same code and buffer
      size are the same bytes. */
  lemma SprImageUnique(a: seq<u8>, b: seq<u8>, code: seq<u8>, bufsize: u16)
    requires IsSprImage(a, code, bufsize) && IsSprImage(b, code, bufsize)
    ensures a == b
  {
    forall i | 0 <= i < |a|
      ensures a[i] == b[i]
    {
      if CodeOffset <= i < CodeOffset + |code| {
        assert a[i] == a[CodeOffset..CodeOffset + |code|][i - CodeOffset];
        assert b[i] == b[CodeOffset..CodeOffset + |code|][i - CodeOffset];
      }
    }
  }
}
