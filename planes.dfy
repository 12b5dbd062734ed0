/**
  Host-side copies between the strided planes of a frame and the packed `w * h`
  planes the network input and output use (the nested y/x loops of
  `RIFE::process` and `RIFE::process_v4`). Samples have a generic type; the
  ×255 and ÷255 rescalings are passed in as functions, since their floating-point
  behaviour is not part of this model.
 */
module Planes {

  import opened Arith

  /** A plane of `h` rows of `w` samples, row `y` starting at `stride * y`, fits in `len` samples. */
  predicate PlaneFits(len: nat, w: nat, h: nat, stride: nat)
  {
    w <= stride && stride * h <= len
  }

  /** Position `k` of a strided plane holds a sample of the visible `w` × `h` region. */
  predicate InRegion(k: int, w: nat, h: nat, stride: nat)
  {
    stride > 0 && 0 <= k && k / stride < h && k % stride < w
  }

  lemma PackedSourceInPlane(w: nat, h: nat, stride: nat, k: nat)
    requires w <= stride && k < w * h
    ensures 0 <= stride * (k / w) + k % w < stride * h
  {
    RowMajorSplit(w, h, k);
    RowMajorBound(stride, k / w, k % w, h);
  }

  lemma UnpackedSourceInPlane(w: nat, h: nat, stride: nat, k: int)
    requires InRegion(k, w, h, stride)
    ensures 0 <= w * (k / stride) + k % stride < w * h
  {
    RowMajorBound(w, k / stride, k % stride, h);
  }

  /** Slot `k` of the packed plane: the rescaled sample of row `k / w`, column `k % w`. */
  ghost function PackedSample<T>(src: seq<T>, w: nat, h: nat, stride: nat, scale: T -> T, k: nat): T
    requires PlaneFits(|src|, w, h, stride) && k < w * h
  {
    PackedSourceInPlane(w, h, stride, k);
    scale(src[stride * (k / w) + k % w])
  }

  /** The packed plane: slot `w * y + x` holds the rescaled sample `stride * y + x`. */
  ghost function Packed<T>(src: seq<T>, w: nat, h: nat, stride: nat, scale: T -> T): (r: seq<T>)
    requires PlaneFits(|src|, w, h, stride)
    ensures |r| == w * h
  {
    seq(w * h, k requires 0 <= k < w * h => PackedSample(src, w, h, stride, scale, k))
  }

  /** Position `k` of the strided plane after unpacking. */
  ghost function UnpackedSample<T>(dst: seq<T>, out: seq<T>, w: nat, h: nat, stride: nat, scale: T -> T, k: nat): T
    requires PlaneFits(|dst|, w, h, stride) && |out| == w * h && k < |dst|
  {
    if InRegion(k, w, h, stride) then
      UnpackedSourceInPlane(w, h, stride, k);
      scale(out[w * (k / stride) + k % stride])
    else dst[k]
  }

  /**
    The strided plane after unpacking: the visible region holds the rescaled
    packed samples, every other position (the row gaps and the tail) keeps its value.
   */
  ghost function Unpacked<T>(dst: seq<T>, out: seq<T>, w: nat, h: nat, stride: nat, scale: T -> T): (r: seq<T>)
    requires PlaneFits(|dst|, w, h, stride) && |out| == w * h
    ensures |r| == |dst|
  {
    seq(|dst|, k requires 0 <= k < |dst| => UnpackedSample(dst, out, w, h, stride, scale, k))
  }

  /** Pack sets `in[w * y + x] = scale(src[stride * y + x])` for every visible sample. */
  lemma PackedAt<T>(src: seq<T>, w: nat, h: nat, stride: nat, scale: T -> T, y: nat, x: nat)
    requires PlaneFits(|src|, w, h, stride)
    requires y < h && x < w
    ensures 0 <= w * y + x < w * h && 0 <= stride * y + x < |src|
    ensures Packed(src, w, h, stride, scale)[w * y + x] == scale(src[stride * y + x])
  {
    RowMajorBound(w, y, x, h);
    RowMajorBound(stride, y, x, h);
    RowMajorDivMod(w, y, x);
  }

  /** The packed (row-major) index of column `x` of row `y` in rows `w` long. */
  function PackedIndex(w: nat, y: nat, x: nat): nat
  {
    w * y + x
  }

  /** The row of packed slot `k`. */
  function Row(w: nat, k: nat): nat
  {
    if w == 0 then 0 else k / w
  }

  /** The column of packed slot `k`. */
  function Column(w: nat, k: nat): nat
  {
    if w == 0 then 0 else k % w
  }

  /** The packed index `w * y + x` hits every slot of `[0, w * h)`, and no slot twice. */
  lemma {:induction false} PackedIndexBijective(w: nat, h: nat)
    ensures forall y: nat, x: nat :: y < h && x < w ==> PackedIndex(w, y, x) < w * h
    ensures forall k: nat :: k < w * h ==> Row(w, k) < h && Column(w, k) < w && k == PackedIndex(w, Row(w, k), Column(w, k))
    ensures forall y1: nat, x1: nat, y2: nat, x2: nat ::
      y1 < h && x1 < w && y2 < h && x2 < w && PackedIndex(w, y1, x1) == PackedIndex(w, y2, x2) ==>
        y1 == y2 && x1 == x2
  {
    forall y: nat, x: nat | y < h && x < w ensures PackedIndex(w, y, x) < w * h {
      RowMajorBound(w, y, x, h);
    }
    forall k: nat | k < w * h ensures Row(w, k) < h && Column(w, k) < w && k == PackedIndex(w, Row(w, k), Column(w, k)) {
      RowMajorSplit(w, h, k);
    }
    forall y1: nat, x1: nat, y2: nat, x2: nat |
      y1 < h && x1 < w && y2 < h && x2 < w && PackedIndex(w, y1, x1) == PackedIndex(w, y2, x2)
      ensures y1 == y2 && x1 == x2
    {
      RowMajorInjective(w, y1, x1, y2, x2);
    }
  }

  /** Unpack writes `dst[stride * y + x] = scale(out[w * y + x])` for every visible sample. */
  lemma UnpackedAt<T>(dst: seq<T>, out: seq<T>, w: nat, h: nat, stride: nat, scale: T -> T, y: nat, x: nat)
    requires PlaneFits(|dst|, w, h, stride) && |out| == w * h
    requires y < h && x < w
    ensures 0 <= stride * y + x < |dst| && 0 <= w * y + x < w * h
    ensures Unpacked(dst, out, w, h, stride, scale)[stride * y + x] == scale(out[w * y + x])
  {
    RowMajorBound(stride, y, x, h);
    RowMajorBound(w, y, x, h);
    RowMajorDivMod(stride, y, x);
  }

  /** The row gap `w <= x < stride` of every row is left as it was. */
  lemma UnpackedKeepsGap<T>(dst: seq<T>, out: seq<T>, w: nat, h: nat, stride: nat, scale: T -> T, y: nat, x: nat)
    requires PlaneFits(|dst|, w, h, stride) && |out| == w * h
    requires y < h && w <= x < stride
    ensures 0 <= stride * y + x < |dst|
    ensures Unpacked(dst, out, w, h, stride, scale)[stride * y + x] == dst[stride * y + x]
  {
    RowMajorBound(stride, y, x, h);
    RowMajorDivMod(stride, y, x);
  }

  /** Nothing at or beyond `stride * h` is written. */
  lemma UnpackedKeepsTail<T>(dst: seq<T>, out: seq<T>, w: nat, h: nat, stride: nat, scale: T -> T, k: nat)
    requires PlaneFits(|dst|, w, h, stride) && |out| == w * h
    requires stride * h <= k < |dst|
    ensures Unpacked(dst, out, w, h, stride, scale)[k] == dst[k]
  {
    if stride > 0 && k / stride < h {
      assert k == stride * (k / stride) + k % stride;
      RowMajorBound(stride, k / stride, k % stride, h);
    }
  }

  /**
    Packing with `toNet` and unpacking the same packed plane with `fromNet` puts
    `fromNet(toNet(src[k]))` at visible position `k` and keeps position `k` of
    `dst` otherwise.
   */
  lemma {:induction false} PackUnpackAt<T>(src: seq<T>, dst: seq<T>, w: nat, h: nat, stride: nat,
                                          toNet: T -> T, fromNet: T -> T, k: nat)
    requires PlaneFits(|src|, w, h, stride) && PlaneFits(|dst|, w, h, stride)
    requires k < |dst|
    ensures InRegion(k, w, h, stride) ==>
      k < |src| && Unpacked(dst, Packed(src, w, h, stride, toNet), w, h, stride, fromNet)[k] == fromNet(toNet(src[k]))
    ensures !InRegion(k, w, h, stride) ==>
      Unpacked(dst, Packed(src, w, h, stride, toNet), w, h, stride, fromNet)[k] == dst[k]
  {
    if InRegion(k, w, h, stride) {
      var p := Packed(src, w, h, stride, toNet);
      var y, x := k / stride, k % stride;
      assert k == stride * y + x;
      UnpackedAt(dst, p, w, h, stride, fromNet, y, x);
      PackedAt(src, w, h, stride, toNet, y, x);
    }
  }

  /** The identity case of the round trip: the visible region of `src` is reproduced. */
  lemma {:induction false} PackUnpackIdentity<T>(src: seq<T>, dst: seq<T>, w: nat, h: nat, stride: nat)
    requires PlaneFits(|src|, w, h, stride) && PlaneFits(|dst|, w, h, stride)
    ensures forall k: nat :: k < |dst| && InRegion(k, w, h, stride) ==>
      k < |src| && Unpacked(dst, Packed(src, w, h, stride, v => v), w, h, stride, v => v)[k] == src[k]
  {
    forall k: nat | k < |dst| && InRegion(k, w, h, stride)
      ensures k < |src| && Unpacked(dst, Packed(src, w, h, stride, v => v), w, h, stride, v => v)[k] == src[k]
    {
      PackUnpackAt(src, dst, w, h, stride, v => v, v => v, k);
    }
  }

  /** The pack loop: `packed[w * y + x] := toNet(src[stride * y + x])` row by row. */
  method PackPlane<T>(src: array<T>, packed: array<T>, w: nat, h: nat, stride: nat, toNet: T -> T)
    requires PlaneFits(src.Length, w, h, stride) && packed.Length == w * h
    requires packed != src
    modifies packed
    ensures packed[..] == Packed(old(src[..]), w, h, stride, toNet)
  {
    ghost var s := src[..];
    ghost var p := Packed(s, w, h, stride, toNet);
    var y := 0;
    while y < h
      invariant 0 <= y <= h
      invariant w * y <= w * h
      invariant forall k :: 0 <= k < w * y ==> packed[k] == p[k]
    {
      var x := 0;
      while x < w
        invariant 0 <= x <= w
        invariant w * y + x <= w * h
        invariant forall k :: 0 <= k < w * y + x ==> packed[k] == p[k]
      {
        PackedAt(s, w, h, stride, toNet, y, x);
        packed[w * y + x] := toNet(src[stride * y + x]);
        x := x + 1;
      }
      assert w * y + w == w * (y + 1);
      y := y + 1;
    }
    assert packed[..] == p;
  }

  /** The unpack loop: `dst[stride * y + x] := fromNet(out[w * y + x])` row by row. */
  method UnpackPlane<T>(out: array<T>, dst: array<T>, w: nat, h: nat, stride: nat, fromNet: T -> T)
    requires PlaneFits(dst.Length, w, h, stride) && out.Length == w * h
    requires out != dst
    modifies dst
    ensures dst[..] == Unpacked(old(dst[..]), out[..], w, h, stride, fromNet)
  {
    ghost var u := Unpacked(dst[..], out[..], w, h, stride, fromNet);
    ghost var d := dst[..];
    var y := 0;
    while y < h
      invariant 0 <= y <= h
      invariant forall k :: 0 <= k < dst.Length ==> dst[k] == if k < stride * y then u[k] else d[k]
    {
      var x := 0;
      while x < w
        invariant 0 <= x <= w
        invariant forall k :: 0 <= k < dst.Length ==> dst[k] == if k < stride * y + x then u[k] else d[k]
      {
        UnpackedAt(d, out[..], w, h, stride, fromNet, y, x);
        dst[stride * y + x] := fromNet(out[w * y + x]);
        x := x + 1;
      }
      forall k | stride * y + w <= k < stride * y + stride && k < dst.Length
        ensures u[k] == d[k]
      {
        UnpackedKeepsGap(d, out[..], w, h, stride, fromNet, y, k - stride * y);
      }
      assert stride * y + stride == stride * (y + 1);
      y := y + 1;
    }
    forall k | stride * h <= k < dst.Length ensures u[k] == d[k] {
      UnpackedKeepsTail(d, out[..], w, h, stride, fromNet, k);
    }
    assert dst[..] == u;
  }
}
