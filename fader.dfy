// create_sequence of fader.go: the counter loop that picks, for every output
// frame, the pair of adjacent input images to blend and the opacity of the
// second one. create_image, which decodes, blends and encodes the images, is
// recorded as a Blend and not modelled further.

module Fader {
  import Sums

  /** opacity_step_procent: the opacity step between frames, in percent. */
  const OpacityStepPercent: int := 3

  /** One create_image call: the background image, the image laid over it,
      its opacity in percent and the output frame number. */
  datatype Blend = Blend(first: string, second: string, opacity: nat, count: nat)

  /** The index of the background image of frame k + 1: counter / 100. */
  function PairIndex(step: int, k: nat): int
    requires step > 0
  {
    k * step / 100
  }

  /** The opacity of frame k + 1: counter % 100. */
  function OpacityAt(step: int, k: nat): int
    requires step > 0
  {
    k * step % 100
  }

  /** A counter that has not reached (n - 1) * 100 names a pair of images
      that both exist. */
  lemma PairInRange(counter: int, n: int)
    requires 0 <= counter < (n - 1) * 100
    ensures 0 <= counter / 100 && counter / 100 + 1 < n
  {
    assert counter / 100 * 100 <= counter;
  }

  /** The call create_sequence makes for frame k + 1, while the counter
      k * step is below the limit. */
  function BlendAt(images: seq<string>, step: int, k: nat): (b: Blend)
    requires step > 0 && k * step < (|images| - 1) * 100
    ensures b.count == k + 1 && b.opacity < 100
  {
    PairInRange(k * step, |images|);
    var i := PairIndex(step, k);
    Blend(images[i], images[i + 1], OpacityAt(step, k), k + 1)
  }

  /** The number of frames drawn for n images: the ceiling of
      (n - 1) * 100 / step. */
  function FramesToDraw(n: int, step: int): int
    requires n >= 2 && step > 0
  {
    ((n - 1) * 100 + step - 1) / step
  }

  /** numToBeDrawn as written: (n - 1) * 100 / step with Go's truncating
      division, the floor of the quotient. */
  function AnnouncedTotal(n: int, step: int): int
    requires step > 0
  {
    Sums.DivTrunc((n - 1) * 100, step)
  }

  /** Euclidean division, spelt out. */
  lemma DivMod(a: int, b: int)
    requires b > 0
    ensures a == a / b * b + a % b && 0 <= a % b < b
  {
  }

  /** Multiplying by a positive number keeps the order. */
  lemma MulMonotone(a: int, b: int, s: int)
    requires a <= b && s > 0
    ensures a * s <= b * s
  {
    assert b * s - a * s == (b - a) * s;
  }

  /** FramesToDraw(n, step) times step is at least the limit and falls
      short of it by less than one step. */
  lemma FramesToDrawBracket(n: int, step: int)
    requires n >= 2 && step > 0
    ensures (FramesToDraw(n, step) - 1) * step < (n - 1) * 100 <= FramesToDraw(n, step) * step
  {
    var f := FramesToDraw(n, step);
    DivMod((n - 1) * 100 + step - 1, step);
    assert (f - 1) * step == f * step - step;
  }

  /** Frame k + 1 is drawn exactly when its counter k * step is below the
      limit (n - 1) * 100. */
  lemma DrawnIff(n: int, step: int, k: nat)
    requires n >= 2 && step > 0
    ensures k < FramesToDraw(n, step) <==> k * step < (n - 1) * 100
  {
    var f := FramesToDraw(n, step);
    FramesToDrawBracket(n, step);
    if k < f {
      MulMonotone(k, f - 1, step);
    } else {
      MulMonotone(f, k, step);
    }
  }

  /** blends are the calls for frames 1 .. |blends|, in order. */
  predicate BlendsFrom(images: seq<string>, step: int, blends: seq<Blend>)
    requires step > 0
  {
    forall k :: 0 <= k < |blends| ==>
      k * step < (|images| - 1) * 100 && blends[k] == BlendAt(images, step, k)
  }

  /** Extending the calls by the next frame's call keeps them in order. */
  lemma AppendBlend(images: seq<string>, step: int, blends: seq<Blend>)
    requires step > 0 && BlendsFrom(images, step, blends)
    requires |blends| * step < (|images| - 1) * 100
    ensures BlendsFrom(images, step, blends + [BlendAt(images, step, |blends|)])
  {
  }

  /** The counter loop: numOfDrawn counts the frames, counter advances by
      the step, and the loop stops once counter reaches (n - 1) * 100.
      With fewer than two images the first turn indexes past the end of
      images and Go panics: panicked is true and nothing is drawn.
      announced is the total printed after each frame. */
  method CreateSequence(images: seq<string>) returns (blends: seq<Blend>, announced: int, panicked: bool)
    ensures announced == AnnouncedTotal(|images|, OpacityStepPercent)
    ensures panicked <==> |images| < 2
    ensures panicked ==> blends == []
    ensures !panicked ==> |blends| == FramesToDraw(|images|, OpacityStepPercent)
    ensures !panicked ==> BlendsFrom(images, OpacityStepPercent, blends)
  {
    var numOfImages := |images|;
    announced := Sums.DivTrunc((numOfImages - 1) * 100, OpacityStepPercent);
    var numOfDrawn := 0;
    var counter := 0;
    blends := [];
    while true
      invariant counter == numOfDrawn * OpacityStepPercent && |blends| == numOfDrawn
      invariant numOfDrawn > 0 ==> numOfImages >= 2 && counter < (numOfImages - 1) * 100
      invariant BlendsFrom(images, OpacityStepPercent, blends)
      decreases (numOfImages - 1) * 100 - counter
    {
      if numOfDrawn > 0 {
        PairInRange(counter, numOfImages);
      }
      var firstImgIndex := counter / 100;
      var opacity := counter % 100;
      numOfDrawn := numOfDrawn + 1;
      if firstImgIndex + 1 >= numOfImages {
        // images[firstImgIndex] or images[firstImgIndex + 1] is out of range
        return blends, announced, true;
      }
      var blend := Blend(images[firstImgIndex], images[firstImgIndex + 1], opacity, numOfDrawn);
      assert blend == BlendAt(images, OpacityStepPercent, numOfDrawn - 1);
      AppendBlend(images, OpacityStepPercent, blends);
      blends := blends + [blend];
      counter := counter + OpacityStepPercent;
      if counter >= (numOfImages - 1) * 100 {
        break;
      }
    }
    DrawnIff(numOfImages, OpacityStepPercent, numOfDrawn - 1);
    DrawnIff(numOfImages, OpacityStepPercent, numOfDrawn);
    panicked := false;
  }

  /** The first frame lays the second image over the first at opacity 0. */
  lemma FirstBlend(images: seq<string>, step: int)
    requires |images| >= 2 && step > 0
    ensures 0 < FramesToDraw(|images|, step)
    ensures BlendAt(images, step, 0) == Blend(images[0], images[1], 0, 1)
  {
    DrawnIff(|images|, step, 0);
  }

  /** Between consecutive frames of the same pair the opacity rises by
      exactly one step. */
  lemma OpacityRises(step: int, k: nat)
    requires step > 0 && PairIndex(step, k) == PairIndex(step, k + 1)
    ensures OpacityAt(step, k + 1) == OpacityAt(step, k) + step
  {
    var c := k * step;
    assert (k + 1) * step == c + step;
    DivMod(c, 100);
    DivMod(c + step, 100);
  }

  /** With a step of at most 100 percent, the next frame blends the same
      pair or the next one: no pair of images is skipped. */
  lemma PairAdvances(step: int, k: nat)
    requires 0 < step <= 100
    ensures PairIndex(step, k) <= PairIndex(step, k + 1) <= PairIndex(step, k) + 1
  {
    var c := k * step;
    assert (k + 1) * step == c + step;
    DivMod(c, 100);
    DivMod(c + step, 100);
  }

  /** With a step of at most 100 percent every pair of adjacent images is
      blended: pair i is first shown by frame ceil(100 * i / step) + 1. */
  lemma EveryPairBlended(n: int, step: int, i: int)
    requires n >= 2 && 0 < step <= 100 && 0 <= i < n - 1
    ensures exists k: nat :: k < FramesToDraw(n, step) && PairIndex(step, k) == i
  {
    var k := (100 * i + step - 1) / step;
    DivMod(100 * i + step - 1, step);
    assert k * step >= 100 * i;
    assert k * step < 100 * i + step;
    Sums.QuotientUnique(k * step, 100, i);
    assert k * step < (n - 1) * 100;
    DrawnIff(n, step, k);
    assert PairIndex(step, k) == i;
  }

  /** numToBeDrawn as written agrees with the number of frames drawn exactly
      when the step divides (n - 1) * 100; otherwise it is one short. */
  lemma AnnouncedFallsShort(n: int, step: int)
    requires n >= 2 && step > 0
    ensures (n - 1) * 100 % step == 0 ==> AnnouncedTotal(n, step) == FramesToDraw(n, step)
    ensures (n - 1) * 100 % step != 0 ==> AnnouncedTotal(n, step) == FramesToDraw(n, step) - 1
  {
    var l := (n - 1) * 100;
    var q := l / step;
    DivMod(l, step);
    if l % step == 0 {
      Sums.QuotientUnique(l + step - 1, step, q);
    } else {
      assert (q + 1) * step == q * step + step;
      Sums.QuotientUnique(l + step - 1, step, q + 1);
    }
  }

  /** The three images 1.png, 2.png, 1.png at the 3 percent step: 67 frames
      are drawn while the progress line announces 66. */
  lemma DefaultImagesAnnounced()
    ensures FramesToDraw(3, OpacityStepPercent) == 67
    ensures AnnouncedTotal(3, OpacityStepPercent) == 66
  {
    FramesToDrawBracket(3, OpacityStepPercent);
  }
}
