/**
  `rifeGetFrame`: which source frames an output frame asks for, whether it
  is interpolated or copied, and how its duration property is adjusted.
  The output clip has twice the source's frames: output frame `n` starts
  from source frame `n / 2`, and odd frames that have a successor pair
  are synthesized between `n / 2` and `n / 2 + 1`.
 */
module Scheduler {

  import opened Common
  import opened Rational

  /** Why the host calls the frame function. */
  datatype Activation = Initial | AllFramesReady | OtherActivation

  /** The properties of source frame `n / 2` the filter reads; an absent key is `None`. */
  datatype Props = Props(sceneChangeNext: Option<int>, durationNum: Option<int>, durationDen: Option<int>)

  /** What the produced frame is made of. */
  datatype Output = CopyOf(src: nat) | Interpolated(src0: nat, src1: nat)

  /** The effect of one call. */
  datatype Reply =
    | Requests(frames: seq<nat>)          // `arInitial`: the `requestFrameFilter` calls; no frame returned
    | Produced(out: Output, fetched: seq<nat>, durationNum: Option<int>, durationDen: Option<int>)
    | NoReply                             // any other activation: no frame returned

  /** `(n & 1) && n < numFrames - 2`, with `numFrames` the output length. */
  predicate Pairs(n: nat, numOut: int)
  {
    n % 2 == 1 && n < numOut - 2
  }

  /** Scene-change detection is on and src0 carries a nonzero `_SceneChangeNext` (absent reads as 0). */
  predicate SceneChange(sc: bool, p: Props)
  {
    sc && p.sceneChangeNext.Some? && p.sceneChangeNext.value != 0
  }

  /** The duration properties after the adjustment: scaled by 1/2 when both are present, else untouched. */
  function AdjustDuration(num: Option<int>, den: Option<int>): (Option<int>, Option<int>)
  {
    if num.Some? && den.Some? then
      var r := MulDiv(Ratio(num.value, den.value), 1, 2);
      (Some(r.num), Some(r.den))
    else
      (num, den)
  }

  /** The first source index used by every output frame. */
  function First(out: Output): nat
  {
    match out
    case CopyOf(s) => s
    case Interpolated(s, _) => s
  }

  /**
    One call of the frame function for output frame `n` of a clip of
    `numOut` frames. Both the copy and the new frame take src0's
    properties, so the duration read back is src0's.
   */
  function GetFrame(n: nat, reason: Activation, numOut: int, sc: bool, src0: Props): Reply
  {
    match reason
    case Initial =>
      Requests([n / 2] + (if Pairs(n, numOut) then [n / 2 + 1] else []))
    case AllFramesReady =>
      var out := if Pairs(n, numOut) && !SceneChange(sc, src0) then Interpolated(n / 2, n / 2 + 1) else CopyOf(n / 2);
      var fetched := [n / 2] + (if out.Interpolated? then [n / 2 + 1] else []);
      var duration := AdjustDuration(src0.durationNum, src0.durationDen);
      Produced(out, fetched, duration.0, duration.1)
    case OtherActivation =>
      NoReply
  }

  /**
    The decision once the frames are ready: src0 is always `n / 2`; the
    frame is interpolated with src1 `n / 2 + 1` exactly when `n` is odd,
    `n < numOut - 2` and there is no scene change, and copied otherwise.
   */
  lemma Decision(n: nat, numOut: int, sc: bool, p: Props)
    ensures GetFrame(n, AllFramesReady, numOut, sc, p).Produced?
    ensures First(GetFrame(n, AllFramesReady, numOut, sc, p).out) == n / 2
    ensures GetFrame(n, AllFramesReady, numOut, sc, p).out.Interpolated?
            <==> n % 2 == 1 && n < numOut - 2 && !SceneChange(sc, p)
    ensures GetFrame(n, AllFramesReady, numOut, sc, p).out.Interpolated?
            ==> GetFrame(n, AllFramesReady, numOut, sc, p).out.src1 == n / 2 + 1
  {
  }

  /** A scene change after src0 always yields a copy of src0. */
  lemma SceneChangeCopies(n: nat, numOut: int, p: Props, next: int)
    requires p.sceneChangeNext == Some(next) && next != 0
    ensures GetFrame(n, AllFramesReady, numOut, true, p).out == CopyOf(n / 2)
  {
  }

  /** The source frames asked for on the first call, and those read once they are ready. */
  function Requested(n: nat, numOut: int, sc: bool, p: Props): seq<nat>
  {
    GetFrame(n, Initial, numOut, sc, p).frames
  }

  function Fetched(n: nat, numOut: int, sc: bool, p: Props): seq<nat>
  {
    GetFrame(n, AllFramesReady, numOut, sc, p).fetched
  }

  /**
    Every frame read when the frames are ready was requested on the first
    call for the same `n`; under a scene change `n / 2 + 1` is requested
    but never read.
   */
  lemma FetchedWereRequested(n: nat, numOut: int, sc: bool, p: Props)
    ensures forall k :: k in Fetched(n, numOut, sc, p) ==> k in Requested(n, numOut, sc, p)
    ensures Pairs(n, numOut) && SceneChange(sc, p)
            ==> n / 2 + 1 in Requested(n, numOut, sc, p) && n / 2 + 1 !in Fetched(n, numOut, sc, p)
  {
  }

  /**
    For an output clip of `2 * numSrc` frames, every source index requested
    or read for a frame `n` of it lies in `[0, numSrc)`.
   */
  lemma IndicesInRange(n: nat, numSrc: nat, sc: bool, p: Props)
    requires n < 2 * numSrc
    ensures forall k :: k in Requested(n, 2 * numSrc, sc, p) ==> k < numSrc
    ensures forall k :: k in Fetched(n, 2 * numSrc, sc, p) ==> k < numSrc
  {
    FetchedWereRequested(n, 2 * numSrc, sc, p);
    if Pairs(n, 2 * numSrc) {
      assert n / 2 + 1 < numSrc;
    }
  }

  /**
    The layout of the output clip: frame `2k` copies source `k`, frame
    `2k + 1` lies between sources `k` and `k + 1` unless a scene change
    follows `k`, and the last frame repeats the last source frame.
   */
  lemma {:induction false} Layout(numSrc: nat, k: nat, sc: bool, p: Props)
    requires k < numSrc
    ensures GetFrame(2 * k, AllFramesReady, 2 * numSrc, sc, p).out == CopyOf(k)
    ensures k + 1 < numSrc && !SceneChange(sc, p)
            ==> GetFrame(2 * k + 1, AllFramesReady, 2 * numSrc, sc, p).out == Interpolated(k, k + 1)
    ensures k + 1 < numSrc && SceneChange(sc, p)
            ==> GetFrame(2 * k + 1, AllFramesReady, 2 * numSrc, sc, p).out == CopyOf(k)
    ensures k + 1 == numSrc ==> GetFrame(2 * k + 1, AllFramesReady, 2 * numSrc, sc, p).out == CopyOf(k)
  {
    assert (2 * k) / 2 == k && (2 * k) % 2 == 0;
    assert (2 * k + 1) / 2 == k && (2 * k + 1) % 2 == 1;
  }

  /**
    The duration read back from src0 is replaced by half its value when
    both keys are present, and left as it was otherwise.
   */
  lemma DurationHalved(n: nat, numOut: int, sc: bool, p: Props)
    ensures var r := GetFrame(n, AllFramesReady, numOut, sc, p);
            if p.durationNum.Some? && p.durationDen.Some? then
              r.durationNum.Some? && r.durationDen.Some?
              && 2 * r.durationNum.value * p.durationDen.value == p.durationNum.value * r.durationDen.value
              && (p.durationDen.value != 0 ==> r.durationDen.value != 0)
            else
              r.durationNum == p.durationNum && r.durationDen == p.durationDen
  {
    if p.durationNum.Some? && p.durationDen.Some? {
      var q := Ratio(p.durationNum.value, p.durationDen.value);
      var r := MulDiv(q, 1, 2);
      assert r.num * q.den * 2 == q.num * 1 * r.den;
    }
  }

  /** Neither the first call nor any other activation returns a frame. */
  lemma OnlyReadyCallsProduce(n: nat, reason: Activation, numOut: int, sc: bool, p: Props)
    ensures GetFrame(n, reason, numOut, sc, p).Produced? <==> reason == AllFramesReady
    ensures GetFrame(n, reason, numOut, sc, p).Requests? <==> reason == Initial
  {
  }
}
