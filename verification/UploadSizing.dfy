/**
 Part arithmetic of a multipart upload, on both sides of the wire: the server's sizing in
 UploadSessionService.init and the client's re-derived slices in uploadParts.
 */
module UploadSizing {

  const MULTIPART_THRESHOLD := 100 * 1024 * 1024
  const DEFAULT_PART_SIZE := 100 * 1024 * 1024
  const MAX_PARTS := 10000
  const SIZING_PARTS := 9000
  const MAX_FILE_SIZE := 100 * 1024 * 1024 * 1024

  newtype byte = x: int | 0 <= x < 256
  type Blob = seq<byte>

  /** Math.ceil(a / b) on non-negative a. */
  function CeilDiv(a: nat, b: nat): nat
    requires b > 0
  {
    (a + b - 1) / b
  }

  function Max(a: nat, b: nat): nat { if a < b then b else a }

  function Min(a: nat, b: nat): nat { if a < b then a else b }

  function ServerPartSize(size: nat): nat {
    Max(DEFAULT_PART_SIZE, CeilDiv(size, SIZING_PARTS))
  }

  function ServerPartCount(size: nat): nat {
    CeilDiv(size, ServerPartSize(size))
  }

  function ClientPartSize(size: nat, count: nat): nat
    requires count > 0
  {
    CeilDiv(size, count)
  }

  /** Where the slice of part `n` (counted from 1) begins; File.slice clamps to the file size. */
  function SliceStart(size: nat, count: nat, n: nat): nat
    requires count > 0 && n > 0
  {
    Min((n - 1) * ClientPartSize(size, count), size)
  }

  function SliceEnd(size: nat, count: nat, n: nat): nat
    requires count > 0 && n > 0
  {
    Min((n - 1) * ClientPartSize(size, count) + ClientPartSize(size, count), size)
  }

  /** The bytes PUT for part `n`. */
  function Slice(file: Blob, count: nat, n: nat): Blob
    requires count > 0 && n > 0
  {
    file[SliceStart(|file|, count, n)..SliceEnd(|file|, count, n)]
  }

  /** The object store's concatenation of the first `n` slices. */
  ghost function FirstSlices(file: Blob, count: nat, n: nat): Blob
    requires count > 0
  {
    if n == 0 then [] else FirstSlices(file, count, n - 1) + Slice(file, count, n)
  }

  // ----- ceiling division

  lemma CeilDivBounds(a: nat, b: nat)
    requires b > 0
    ensures CeilDiv(a, b) * b >= a
    ensures a > 0 ==> (CeilDiv(a, b) - 1) * b < a
    ensures CeilDiv(a, b) == 0 <==> a == 0
  {
    var q := CeilDiv(a, b);
    assert a + b - 1 == q * b + (a + b - 1) % b;
    assert (q - 1) * b == q * b - b;
  }

  lemma CeilDivAtMost(a: nat, b: nat, q: nat)
    requires b > 0 && a <= q * b
    ensures CeilDiv(a, b) <= q
  {
    var c := CeilDiv(a, b);
    CeilDivBounds(a, b);
    if c > q {
      MulMonotone(q, c - 1, b);
    }
  }

  lemma MulMonotone(x: int, y: int, z: nat)
    requires x <= y
    ensures x * z <= y * z
  {
    assert (y - x) * z >= 0;
  }

  // ----- the server's sizing

  /** 9000 parts are always enough, so the MAX_PARTS test of init can never fire. */
  lemma ServerPartCountIsSmall(size: nat)
    requires size > 0
    ensures 1 <= ServerPartCount(size) <= SIZING_PARTS < MAX_PARTS
    ensures (ServerPartCount(size) - 1) * ServerPartSize(size) < size <= ServerPartCount(size) * ServerPartSize(size)
  {
    var ps := ServerPartSize(size);
    CeilDivBounds(size, SIZING_PARTS);
    MulMonotone(CeilDiv(size, SIZING_PARTS), ps, SIZING_PARTS);
    CeilDivAtMost(size, ps, SIZING_PARTS);
    CeilDivBounds(size, ps);
  }

  /** The part size is the least one, from 100 MiB up, with which 9000 parts hold the file. */
  lemma PartSizeIsLeast(size: nat, part: nat)
    ensures DEFAULT_PART_SIZE <= part && size <= part * SIZING_PARTS <==>
            ServerPartSize(size) <= part
  {
    CeilDivBounds(size, SIZING_PARTS);
    if size <= part * SIZING_PARTS {
      CeilDivAtMost(size, SIZING_PARTS, part);
    }
    if ServerPartSize(size) <= part {
      MulMonotone(CeilDiv(size, SIZING_PARTS), part, SIZING_PARTS);
    }
  }

  // ----- the client's slices

  /**
   With size spread over `count` parts of at most `ps`, more than count - 1 of them full, an equal
   share is over half of `ps`.
   */
  lemma EqualShareIsOverHalf(size: nat, count: nat, ps: nat, part: nat)
    requires count >= 2 && (count - 1) * ps < size <= part * count
    ensures 2 * part > ps
  {
    if 2 * part <= ps {
      MulMonotone(2 * part, ps, count);
      MulMonotone(count, 2 * (count - 1), ps);
    }
  }

  /**
   The client never sees the server's part size: it divides the file by the number of part URLs.
   Its slice is never longer than the part the server planned, and longer than half of it.
   */
  lemma ClientPartFitsServerPart(size: nat)
    requires size > 0
    ensures var count := ServerPartCount(size);
            && count > 0
            && 0 < ClientPartSize(size, count) <= ServerPartSize(size)
            && (count >= 2 ==> 2 * ClientPartSize(size, count) > ServerPartSize(size))
  {
    var count, ps := ServerPartCount(size), ServerPartSize(size);
    ServerPartCountIsSmall(size);
    ClientShare(size, count, ps);
  }

  lemma ClientShare(size: nat, count: nat, ps: nat)
    requires 0 < count && 0 < size && (count - 1) * ps < size <= count * ps
    ensures 0 < ClientPartSize(size, count) <= ps
    ensures count >= 2 ==> 2 * ClientPartSize(size, count) > ps
  {
    var part := ClientPartSize(size, count);
    assert count * ps == ps * count;
    CeilDivAtMost(size, count, ps);
    CeilDivBounds(size, count);
    if count >= 2 {
      EqualShareIsOverHalf(size, count, ps, part);
    }
  }

  /** The last slice still has a byte to carry: all full slices before it end short of the file. */
  lemma LastSliceIsNotEmpty(size: nat)
    requires size > 0
    ensures var count := ServerPartCount(size);
            var part := ClientPartSize(size, count);
            (count - 1) * part < size <= count * part
  {
    var count, ps := ServerPartCount(size), ServerPartSize(size);
    ServerPartCountIsSmall(size);
    var part := ClientPartSize(size, count);
    CeilDivBounds(size, count);
    assert part * count == count * part;
    ClientPartFitsServerPart(size);
    if count >= 2 {
      FullSlicesEndShort(size, count, part);
    }
  }

  /** Rounding each slice up costs less than one slice in all, because slices outsize their number. */
  lemma FullSlicesEndShort(size: nat, count: nat, part: nat)
    requires (part - 1) * count < size && count <= part
    ensures (count - 1) * part < size
  {
    assert (part - 1) * count == part * count - count;
    assert (count - 1) * part == part * count - part;
  }

  lemma {:induction false} FirstSlicesArePrefix(file: Blob, n: nat)
    requires |file| > 0 && n <= ServerPartCount(|file|)
    ensures ServerPartCount(|file|) > 0
    ensures var count := ServerPartCount(|file|);
            && n * ClientPartSize(|file|, count) >= 0
            && FirstSlices(file, count, n) == file[..Min(n * ClientPartSize(|file|, count), |file|)]
  {
    ServerPartCountIsSmall(|file|);
    var count := ServerPartCount(|file|);
    var part := ClientPartSize(|file|, count);
    if n > 0 {
      FirstSlicesArePrefix(file, n - 1);
      LastSliceIsNotEmpty(|file|);
      MulMonotone(n - 1, count - 1, part);
      assert n * part == (n - 1) * part + part;
    }
  }

  /** The slices of the client tile the file: none is empty, and glued together they are the file. */
  lemma SlicesTileTheFile(file: Blob)
    requires |file| > 0
    ensures var count := ServerPartCount(|file|);
            && count > 0
            && FirstSlices(file, count, count) == file
            && forall n :: 1 <= n <= count ==>
              0 < |Slice(file, count, n)| <= ServerPartSize(|file|)
  {
    ServerPartCountIsSmall(|file|);
    var count := ServerPartCount(|file|);
    var part := ClientPartSize(|file|, count);
    FirstSlicesArePrefix(file, count);
    LastSliceIsNotEmpty(|file|);
    ClientPartFitsServerPart(|file|);
    forall n | 1 <= n <= count
      ensures 0 < |Slice(file, count, n)| <= ServerPartSize(|file|)
    {
      MulMonotone(n - 1, count - 1, part);
    }
  }

  /** Every slice but the last is a full client part, hence more than half the server's part size. */
  lemma InnerSlicesAreFull(file: Blob, n: nat)
    requires |file| > 0 && 1 <= n < ServerPartCount(|file|)
    ensures 2 * |Slice(file, ServerPartCount(|file|), n)| > ServerPartSize(|file|) >= DEFAULT_PART_SIZE
  {
    ServerPartCountIsSmall(|file|);
    var count := ServerPartCount(|file|);
    var part := ClientPartSize(|file|, count);
    LastSliceIsNotEmpty(|file|);
    ClientPartFitsServerPart(|file|);
    MulMonotone(n, count - 1, part);
    MulMonotone(0, n - 1, part);
    assert n * part == (n - 1) * part + part;
  }
}
