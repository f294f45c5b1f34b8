/**
 * The texture loader's vertical flip: a decoded image is `height` rows of
 * `width * channels` bytes, stored top row first, and OpenGL wants the bottom
 * row first, so the rows are put in reverse order in place by swapping bytes.
 *
 * Row offsets are defined by repeated addition (`RowStart`) rather than by
 * multiplication, which keeps the proofs in linear arithmetic; `RowStartIsProduct`
 * ties them to the products the source computes.
 */
module ImageFlip {

  /** One byte of a decoded image (C's `unsigned char`). */
  newtype byte = x: int | 0 <= x < 256

  /** Offset of the first byte of row `r` when every row holds `w` bytes. */
  function RowStart(r: nat, w: nat): nat
  {
    if r == 0 then 0 else RowStart(r - 1, w) + w
  }

  /** Row `r` starts at byte `r * w`. */
  lemma {:induction false} RowStartIsProduct(r: nat, w: nat)
    ensures RowStart(r, w) == r * w
  {
    if r > 0 {
      RowStartIsProduct(r - 1, w);
      assert (r - 1) * w + w == r * w;
    }
  }

  /** The byte offset of row `j`, computed as `j * width * channels`, is where row `j` starts. */
  function RowOffset(j: nat, width: int, channels: int): (offset: nat)
    requires 0 <= width * channels
    ensures offset == RowStart(j, width * channels)
  {
    RowStartIsProduct(j, width * channels);
    assert j * width * channels == j * (width * channels);
    j * width * channels
  }

  /** Later rows start later, and a row ends no later than the next one starts. */
  lemma {:induction false} RowStartGrows(r1: nat, r2: nat, w: nat)
    ensures r1 <= r2 ==> RowStart(r1, w) <= RowStart(r2, w)
    ensures r1 < r2 ==> RowStart(r1, w) + w <= RowStart(r2, w)
  {
    if r1 < r2 {
      RowStartGrows(r1, r2 - 1, w);
    }
  }

  /** Rows of no bytes all start at offset zero. */
  lemma {:induction false} EmptyRows(r: nat, w: nat)
    requires w == 0
    ensures RowStart(r, w) == 0
  {
    if r > 0 {
      EmptyRows(r - 1, w);
    }
  }

  /** The row holding byte `k`. */
  function RowOf(k: nat, w: nat): (r: nat)
    requires 0 < w
    ensures RowStart(r, w) <= k < RowStart(r, w) + w
    decreases k
  {
    if k < w then 0 else RowOf(k - w, w) + 1
  }

  /** Byte `b` of row `r` lies in row `r`. */
  lemma RowOfInRow(r: nat, b: nat, w: nat)
    requires b < w
    ensures RowOf(RowStart(r, w) + b, w) == r
  {
    var r2 := RowOf(RowStart(r, w) + b, w);
    RowStartGrows(r2, r, w);
    RowStartGrows(r, r2, w);
  }

  /**
   * The position whose byte lands at position `k` when the first `height` rows of
   * `w` bytes are put in reverse order; a position past the image is its own mirror.
   */
  function Mirror(k: nat, w: nat, height: nat): (m: nat)
    ensures k < RowStart(height, w) ==> m < RowStart(height, w)
    ensures RowStart(height, w) <= k ==> m == k
  {
    if 0 < w && k < RowStart(height, w) then
      var r := RowOf(k, w);
      RowStartGrows(height, r, w);
      RowStartGrows(height - 1 - r, height, w);
      RowStart(height - 1 - r, w) + (k - RowStart(r, w))
    else if w == 0 then
      EmptyRows(height, w);
      k
    else
      k
  }

  /** Byte `b` of row `r` comes from byte `b` of row `height - 1 - r`. */
  lemma MirrorRow(r: nat, b: nat, w: nat, height: nat)
    requires r < height && b < w
    ensures RowStart(r, w) + b < RowStart(height, w)
    ensures Mirror(RowStart(r, w) + b, w, height) == RowStart(height - 1 - r, w) + b
  {
    RowStartGrows(r, height, w);
    RowOfInRow(r, b, w);
  }

  /** Mirroring twice gives the position back. */
  lemma MirrorTwice(k: nat, w: nat, height: nat)
    ensures Mirror(Mirror(k, w, height), w, height) == k
  {
    if w == 0 {
      EmptyRows(height, w);
    } else if k < RowStart(height, w) {
      var r := RowOf(k, w);
      RowStartGrows(height, r, w);
      MirrorRow(height - 1 - r, k - RowStart(r, w), w, height);
    }
  }

  /**
   * The image `s` with its first `height` rows of `w` bytes in reverse order: the
   * value `FlipImageVertically` leaves in the buffer.
   */
  function Flipped(s: seq<byte>, w: nat, height: nat): (t: seq<byte>)
    requires height * w <= |s|
    ensures |t| == |s|
    ensures forall k :: height * w <= k < |s| ==> t[k] == s[k]
  {
    RowStartIsProduct(height, w);
    seq(|s|, k requires 0 <= k < |s| => s[Mirror(k, w, height)])
  }

  /**
   * The row mapping: byte `b` of row `r` after the flip is byte `b` of row
   * `height - 1 - r` before it (row `r` starts at `RowStart(r, w)`, that is at `r * w`).
   */
  lemma FlippedRow(s: seq<byte>, w: nat, height: nat, r: nat, b: nat)
    requires height * w <= |s|
    requires r < height && b < w
    ensures RowStart(r, w) + b < |s| && RowStart(height - 1 - r, w) + b < |s|
    ensures Flipped(s, w, height)[RowStart(r, w) + b] == s[RowStart(height - 1 - r, w) + b]
  {
    RowStartIsProduct(height, w);
    MirrorRow(r, b, w, height);
    var k := RowStart(r, w) + b;
    assert Flipped(s, w, height)[k] == s[Mirror(k, w, height)];
  }

  /** Flipping twice restores the buffer. */
  lemma FlippedTwice(s: seq<byte>, w: nat, height: nat)
    requires height * w <= |s|
    ensures Flipped(Flipped(s, w, height), w, height) == s
  {
    var t := Flipped(Flipped(s, w, height), w, height);
    RowStartIsProduct(height, w);
    forall k | 0 <= k < |s|
      ensures t[k] == s[k]
    {
      MirrorTwice(k, w, height);
    }
  }

  /** With an odd number of rows the middle row `height / 2` keeps its bytes. */
  lemma FlippedMiddleRow(s: seq<byte>, w: nat, height: nat, b: nat)
    requires height * w <= |s|
    requires height % 2 == 1 && b < w
    ensures RowStart(height / 2, w) + b < |s|
    ensures Flipped(s, w, height)[RowStart(height / 2, w) + b] == s[RowStart(height / 2, w) + b]
  {
    FlippedRow(s, w, height, height / 2, b);
  }

  /** Between the rows below `height / 2` and their mirrors lies at most the middle row, which is its own mirror. */
  lemma MiddleIsFixed(k: nat, w: nat, height: nat)
    requires RowStart(height / 2, w) <= k < RowStart(height - height / 2, w)
    ensures Mirror(k, w, height) == k
  {
    var j := height / 2;
    RowStartGrows(height - j, j, w);
    assert height - j == j + 1;
    MirrorRow(j, k - RowStart(j, w), w, height);
  }

  /**
   * The state of the buffer after the first `j` passes of the flip: rows below `j`
   * and the `j` last rows hold the bytes of their mirrors, and every other byte
   * is where it was.
   */
  ghost predicate FlippedOutside(s: seq<byte>, orig: seq<byte>, w: nat, height: nat, j: nat)
  {
    |s| == |orig| && j <= height - j &&
    RowStart(j, w) <= RowStart(height - j, w) <= RowStart(height, w) <= |s| &&
    (forall k :: 0 <= k < RowStart(j, w) ==> s[k] == orig[Mirror(k, w, height)]) &&
    (forall k :: RowStart(height - j, w) <= k < RowStart(height, w) ==> s[k] == orig[Mirror(k, w, height)]) &&
    (forall k :: RowStart(j, w) <= k < RowStart(height - j, w) || RowStart(height, w) <= k < |s| ==> s[k] == orig[k])
  }

  /** The two rows exchanged by pass `j` lie inside the image and do not overlap. */
  lemma PassBounds(j: nat, w: nat, height: nat)
    requires j < height - 1 - j
    ensures RowStart(j, w) + w <= RowStart(height - 1 - j, w)
    ensures RowStart(height - 1 - j, w) + w <= RowStart(height, w)
  {
    RowStartGrows(j + 1, height - 1 - j, w);
    RowStartGrows(height - j, height, w);
  }

  /** Before the first pass nothing is flipped. */
  lemma NothingFlippedYet(orig: seq<byte>, w: nat, height: nat)
    requires height * w <= |orig|
    ensures FlippedOutside(orig, orig, w, height, 0)
  {
    RowStartIsProduct(height, w);
  }

  /**
   * What one pass of the flip does to a buffer: rows `j` and `height - 1 - j` of
   * `before` are exchanged in `after`, and every other byte stays.
   */
  ghost predicate RowsExchanged(before: seq<byte>, after: seq<byte>, w: nat, lo: nat, hi: nat)
  {
    |after| == |before| && lo + w <= hi && hi + w <= |before| &&
    (forall k :: lo <= k < lo + w ==> after[k] == before[k - lo + hi]) &&
    (forall k :: hi <= k < hi + w ==> after[k] == before[k - hi + lo]) &&
    (forall k :: 0 <= k < lo || lo + w <= k < hi || hi + w <= k < |after| ==> after[k] == before[k])
  }

  /** After pass `j` the rows up to and including row `j` hold the bytes of their mirrors. */
  lemma FlipStepFront(before: seq<byte>, after: seq<byte>, orig: seq<byte>, w: nat, height: nat, j: nat)
    requires FlippedOutside(before, orig, w, height, j) && j < height - 1 - j
    requires RowsExchanged(before, after, w, RowStart(j, w), RowStart(height - 1 - j, w))
    ensures forall k :: 0 <= k < RowStart(j + 1, w) ==> after[k] == orig[Mirror(k, w, height)]
  {
    var lo, hi := RowStart(j, w), RowStart(height - 1 - j, w);
    forall k | lo <= k < lo + w
      ensures after[k] == orig[Mirror(k, w, height)]
    {
      MirrorRow(j, k - lo, w, height);
    }
  }

  /** After pass `j` the last `j + 1` rows hold the bytes of their mirrors. */
  lemma FlipStepBack(before: seq<byte>, after: seq<byte>, orig: seq<byte>, w: nat, height: nat, j: nat)
    requires FlippedOutside(before, orig, w, height, j) && j < height - 1 - j
    requires RowsExchanged(before, after, w, RowStart(j, w), RowStart(height - 1 - j, w))
    ensures forall k :: RowStart(height - 1 - j, w) <= k < RowStart(height, w) ==> after[k] == orig[Mirror(k, w, height)]
  {
    var lo, hi := RowStart(j, w), RowStart(height - 1 - j, w);
    forall k | hi <= k < hi + w
      ensures after[k] == orig[Mirror(k, w, height)]
    {
      MirrorRow(height - 1 - j, k - hi, w, height);
    }
  }

  /** One pass of the flip takes the state after `j` passes to the state after `j + 1` passes. */
  lemma FlipStep(before: seq<byte>, after: seq<byte>, orig: seq<byte>, w: nat, height: nat, j: nat)
    requires FlippedOutside(before, orig, w, height, j) && j < height - 1 - j
    requires RowsExchanged(before, after, w, RowStart(j, w), RowStart(height - 1 - j, w))
    ensures FlippedOutside(after, orig, w, height, j + 1)
  {
    FlipStepFront(before, after, orig, w, height, j);
    FlipStepBack(before, after, orig, w, height, j);
  }

  /** After `height / 2` passes what is left in place is at most the middle row, so the buffer is flipped. */
  lemma AllRowsFlipped(s: seq<byte>, orig: seq<byte>, w: nat, height: nat)
    requires FlippedOutside(s, orig, w, height, height / 2)
    ensures RowStart(height, w) == height * w
    ensures s == Flipped(orig, w, height)
  {
    RowStartIsProduct(height, w);
    var t := Flipped(orig, w, height);
    forall k | 0 <= k < |s|
      ensures s[k] == t[k]
    {
      if RowStart(height / 2, w) <= k < RowStart(height - height / 2, w) {
        MiddleIsFixed(k, w, height);
      }
    }
  }

  /** Exchanges two bytes of the image; everything else stays. */
  method SwapBytes(image: array<byte>, i: int, j: int)
    requires 0 <= i < image.Length && 0 <= j < image.Length
    modifies image
    ensures image[..] == old(image[..])[i := old(image[j])][j := old(image[i])]
    ensures multiset(image[..]) == multiset(old(image[..]))
  {
    var temp := image[i];
    image[i] := image[j];
    image[j] := temp;
  }

  /**
   * The inner loop of the flip: exchanges `count` consecutive bytes starting at
   * `index1` with those starting at `index2`, one byte at a time.
   */
  method SwapRows(image: array<byte>, index1: int, index2: int, count: int)
    requires 0 <= index1 && 0 <= count && index1 + count <= index2 && index2 + count <= image.Length
    modifies image
    ensures RowsExchanged(old(image[..]), image[..], count, index1, index2)
    ensures multiset(image[..]) == multiset(old(image[..]))
  {
    var i, p, q := count, index1, index2;
    while i > 0
      invariant 0 <= i <= count && p == index1 + (count - i) && q == index2 + (count - i)
      invariant forall k :: index1 <= k < p ==> image[k] == old(image[k - index1 + index2])
      invariant forall k :: index2 <= k < q ==> image[k] == old(image[k - index2 + index1])
      invariant forall k :: 0 <= k < index1 || p <= k < index2 || q <= k < image.Length ==> image[k] == old(image[k])
      invariant multiset(image[..]) == multiset(old(image[..]))
    {
      SwapBytes(image, p, q);
      p, q := p + 1, q + 1;
      i := i - 1;
    }
  }

  /**
   * One pass of the outer loop of the flip: rows `j` and `height - 1 - j` are
   * exchanged, which extends the flipped border by one row at each end.
   */
  method FlipRowPair(image: array<byte>, width: int, height: int, channels: int, j: int, ghost orig: seq<byte>)
    requires 0 <= width * channels && 0 <= j && j < height - 1 - j
    requires FlippedOutside(image[..], orig, width * channels, height, j)
    modifies image
    ensures FlippedOutside(image[..], orig, width * channels, height, j + 1)
    ensures multiset(image[..]) == multiset(old(image[..]))
  {
    ghost var w: nat := width * channels;
    var index1 := RowOffset(j, width, channels);
    var index2 := RowOffset(height - 1 - j, width, channels);
    PassBounds(j, w, height);
    ghost var before := image[..];
    SwapRows(image, index1, index2, width * channels);
    FlipStep(before, image[..], orig, w, height, j);
  }

  /**
   * Reverses the order of the first `height` rows of `width * channels` bytes in
   * place. Rows `j` and `height - 1 - j` are exchanged byte by byte for every
   * `j < height / 2`, so an odd middle row is never touched and no byte past
   * `height * width * channels` is read or written. With fewer than two rows, or
   * rows of no bytes (a negative row length included), no byte is read or
   * exchanged, so the buffer may then be of any size.
   */
  method FlipImageVertically(image: array<byte>, width: int, height: int, channels: int)
    requires 1 < height && 0 < width * channels ==> height * (width * channels) <= image.Length
    modifies image
    ensures 1 < height && 0 < width * channels ==> image[..] == Flipped(old(image[..]), width * channels, height)
    ensures !(1 < height && 0 < width * channels) ==> image[..] == old(image[..])
    ensures multiset(image[..]) == multiset(old(image[..]))
  {
    if height <= 1 || width * channels <= 0 {
      return;
    }
    ghost var w: nat := width * channels;
    ghost var orig := image[..];
    NothingFlippedYet(orig, w, height);
    for j := 0 to height / 2
      invariant FlippedOutside(image[..], orig, w, height, j)
      invariant multiset(image[..]) == multiset(orig)
    {
      FlipRowPair(image, width, height, channels, j, orig);
    }
    AllRowsFlipped(image[..], orig, w, height);
  }
}
