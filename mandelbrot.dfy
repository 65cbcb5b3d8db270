// The animation driver of mandelbrot.go: the package-level state that main,
// createOne and render update, the two frame loops of main, createOne's
// colour-step adjustment and ramp check, and render's row loop, centroid and
// guarded re-centring. The floating-point collaborators are parameters,
// bundled in Env; the colorStep comparison is made on exact reals.

module Mandelbrot {
  import opened Colour
  import opened Palettes
  import opened Rows

  /** The plane bounds render derives from the centre, the escape radius and
      the aspect ratio (xmin, xmax, ymin, ymax). */
  datatype Bounds = Bounds(xmin: real, xmax: real, ymin: real, ymax: real)

  /** What the floating-point part of one frame depends on: the centre, the
      frame number (which alone fixes the escape radius, divided or multiplied
      by radiusStep once per frame) and the iteration budget. */
  datatype View = View(xpos: real, ypos: real, frame: int, maxIteration: int)

  /** The collaborators computed in floating point or held in the palette
      package, none of which is modelled:
      - palettes, paletteName: the palette table and the -palette flag;
      - samples: the positions 0, 1/colorStep, 2/colorStep, ... up to 1 as the
        float loop of interpolateColors accumulates them, by colorStep;
      - pack: rgbaToUint;
      - cosine: cosineInterpolation followed by the uint32 conversion;
      - bounds: the plane bounds of a frame;
      - cells: mandelIteration and the log smoothing for pixel (ix, iy);
      - toPlane: convertToRelative. */
  datatype Env = Env(
    palettes: seq<Palette>,
    paletteName: string,
    samples: real -> seq<real>,
    pack: Rgba -> Word,
    cosine: (Word, Word, real) -> Word,
    bounds: View -> Bounds,
    cells: (View, nat, nat) -> Cell,
    toPlane: (real, real, nat, int) -> real)

  /** The cells of the pixels of a frame rendered from view. */
  function FrameCells(env: Env, view: View): (nat, nat) -> Cell
  {
    (ix: nat, iy: nat) => env.cells(view, ix, iy)
  }

  /** The shades of every pixel of a frame rendered from view with a ramp. */
  function FrameGrid(env: Env, view: View, colours: seq<Rgba>, width: nat, height: nat): seq<seq<Shade>>
  {
    Grid(colours, env.pack, FrameCells(env, view), width, height)
  }

  /** The colour ramp of a frame drawn with colorStep. */
  function FrameRamp(env: Env, colorStep: real): seq<Rgba>
  {
    Ramp(env.palettes, env.paletteName, env.samples(colorStep), env.pack, env.cosine)
  }

  /** What createOne does with a frame: no image when the ramp is empty, a
      panic when render divides by zero, an encoded image otherwise. */
  datatype Outcome = NoImage | Panic | Image

  function FrameOutcome(env: Env, view: View, colorStep: real, width: nat, height: nat): Outcome
  {
    var ramp := FrameRamp(env, colorStep);
    if |ramp| == 0 then NoImage
    else if CentroidOf(FrameGrid(env, view, ramp, width, height)).Centre? then Image
    else Panic
  }

  /** The centre createOne leaves: an encoded frame moves each coordinate to
      its centroid when that lies strictly inside the image; otherwise the
      centre is kept. */
  function CentreAfter(env: Env, view: View, colorStep: real, width: nat, height: nat): (real, real)
  {
    var c := CentroidOf(FrameGrid(env, view, FrameRamp(env, colorStep), width, height));
    var b := env.bounds(view);
    if FrameOutcome(env, view, colorStep, width, height) == Image && c.Centre? then
      (if 0 < c.x < width then env.toPlane(b.xmin, b.xmax, width, c.x) else view.xpos,
       if 0 < c.y < height then env.toPlane(b.ymin, b.ymax, height, c.y) else view.ypos)
    else (view.xpos, view.ypos)
  }

  /** What one createOne call renders from: the centre, frame number and
      budget in force, the raised colour step and the image size. */
  datatype FrameInput = FrameInput(view: View, colorStep: real, width: nat, height: nat)

  /** A createOne call rendered from d had the outcome and left the centre
      that d determines. */
  ghost predicate CallAgrees(env: Env, d: FrameInput, outcome: Outcome, centre: (real, real))
  {
    outcome == FrameOutcome(env, d.view, d.colorStep, d.width, d.height) &&
    centre == CentreAfter(env, d.view, d.colorStep, d.width, d.height)
  }

  /** The logs of createOne calls agree call by call. */
  ghost predicate LogsAgree(env: Env, inputs: seq<FrameInput>, outcomes: seq<Outcome>, centres: seq<(real, real)>)
  {
    |outcomes| == |inputs| && |centres| == |inputs| &&
    forall k {:trigger CallAgrees(env, inputs[k], outcomes[k], centres[k])} :: 0 <= k < |inputs| ==>
      CallAgrees(env, inputs[k], outcomes[k], centres[k])
  }

  /** Logging one more call that agrees keeps the logs in agreement. */
  lemma LogsAppend(env: Env, inputs: seq<FrameInput>, outcomes: seq<Outcome>, centres: seq<(real, real)>,
                   d: FrameInput, outcome: Outcome, centre: (real, real))
    requires LogsAgree(env, inputs, outcomes, centres) && CallAgrees(env, d, outcome, centre)
    ensures LogsAgree(env, inputs + [d], outcomes + [outcome], centres + [centre])
  {
  }

  /** In agreeing logs, the latest call had the outcome and left the centre
      its input determines. */
  lemma LatestCall(env: Env, inputs: seq<FrameInput>, outcomes: seq<Outcome>, centres: seq<(real, real)>)
    requires LogsAgree(env, inputs, outcomes, centres) && |inputs| > 0
    ensures var d := inputs[|inputs| - 1];
      outcomes[|outcomes| - 1] == FrameOutcome(env, d.view, d.colorStep, d.width, d.height) &&
      centres[|centres| - 1] == CentreAfter(env, d.view, d.colorStep, d.width, d.height)
  {
    var k := |inputs| - 1;
    assert CallAgrees(env, inputs[k], outcomes[k], centres[k]);
  }

  /** What one createOne call hands on to the next: the centre it leaves
      and the colour step, which only ever rises. */
  datatype Carried = Carried(xpos: real, ypos: real, colorStep: real)

  /** createOne's colour step for a budget: colorStep, raised to the budget
      when it is below it. */
  function RaiseTo(colorStep: real, budget: int): real
  {
    if colorStep < budget as real then budget as real else colorStep
  }

  /** A createOne call renders the frame and budget of call from the centre
      prev hands on, with prev's colour step raised to that budget. */
  predicate Follows(call: FrameCall, d: FrameInput, prev: Carried, width: nat, height: nat)
  {
    d == FrameInput(View(prev.xpos, prev.ypos, call.frame, call.maxIteration),
                    RaiseTo(prev.colorStep, call.maxIteration), width, height)
  }

  /** What the first k calls of a run logged from entry base on hand on to
      the next call: the centre the last of them left and its colour step,
      or start when k is 0. */
  function HandedOn(start: Carried, inputs: seq<FrameInput>, centres: seq<(real, real)>, base: nat, k: nat): Carried
    requires base + k <= |inputs| && base + k <= |centres|
  {
    if k == 0 then start
    else Carried(centres[base + k - 1].0, centres[base + k - 1].1, inputs[base + k - 1].colorStep)
  }

  /** Call k of a run logged from entry base on renders calls[k] from what
      the calls before it hand on. */
  ghost predicate LinkAt(calls: seq<FrameCall>, inputs: seq<FrameInput>, centres: seq<(real, real)>,
                         base: nat, start: Carried, width: nat, height: nat, k: nat)
    requires k < |calls| && base + |calls| <= |inputs| && base + |calls| <= |centres|
  {
    Follows(calls[k], inputs[base + k], HandedOn(start, inputs, centres, base, k), width, height)
  }

  /** The logs end in a run of createOne calls, one entry per call from
      entry base on, made one after another from start on a width x height
      image: each call renders its frame and budget from the centre the
      previous call left (start's for the first), with the colour step it
      handed on raised to that budget. */
  ghost predicate Chained(calls: seq<FrameCall>, inputs: seq<FrameInput>, centres: seq<(real, real)>,
                          base: nat, start: Carried, width: nat, height: nat)
  {
    |inputs| == base + |calls| && |centres| == base + |calls| &&
    forall k {:trigger LinkAt(calls, inputs, centres, base, start, width, height, k)} :: 0 <= k < |calls| ==>
      LinkAt(calls, inputs, centres, base, start, width, height, k)
  }

  /** Logging the next call of a chained run, rendered from what the run
      hands on, makes the run one call longer, and it then hands on the
      centre that call left and its colour step. */
  lemma ChainStep(calls: seq<FrameCall>, inputs: seq<FrameInput>, centres: seq<(real, real)>,
                  base: nat, start: Carried, width: nat, height: nat, call: FrameCall, d: FrameInput,
                  centre: (real, real))
    requires Chained(calls, inputs, centres, base, start, width, height)
    requires Follows(call, d, HandedOn(start, inputs, centres, base, |calls|), width, height)
    ensures Chained(calls + [call], inputs + [d], centres + [centre], base, start, width, height)
    ensures HandedOn(start, inputs + [d], centres + [centre], base, |calls| + 1) == Carried(centre.0, centre.1, d.colorStep)
  {
    var calls', inputs', centres' := calls + [call], inputs + [d], centres + [centre];
    forall k | 0 <= k < |calls'|
      ensures LinkAt(calls', inputs', centres', base, start, width, height, k)
    {
      assert HandedOn(start, inputs', centres', base, k) == HandedOn(start, inputs, centres, base, k);
      if k < |calls| {
        assert LinkAt(calls, inputs, centres, base, start, width, height, k);
      }
    }
  }

  /** A chain of calls c1 logged from entry base on, and a chain c2 logged
      right after it that starts from what c1 hands on, make one chain, as
      long as the logs of c1 are kept. */
  lemma ChainJoin(c1: seq<FrameCall>, c2: seq<FrameCall>, i1: seq<FrameInput>, z1: seq<(real, real)>,
                  inputs: seq<FrameInput>, centres: seq<(real, real)>, base: nat, start: Carried,
                  width: nat, height: nat)
    requires Chained(c1, i1, z1, base, start, width, height) && i1 <= inputs && z1 <= centres
    requires Chained(c2, inputs, centres, |i1|, HandedOn(start, i1, z1, base, |c1|), width, height)
    ensures Chained(c1 + c2, inputs, centres, base, start, width, height)
    ensures HandedOn(HandedOn(start, i1, z1, base, |c1|), inputs, centres, |i1|, |c2|)
            == HandedOn(start, inputs, centres, base, |c1 + c2|)
  {
    var mid := HandedOn(start, i1, z1, base, |c1|);
    forall k | 0 <= k < |c1 + c2|
      ensures LinkAt(c1 + c2, inputs, centres, base, start, width, height, k)
    {
      if k < |c1| {
        assert LinkAt(c1, i1, z1, base, start, width, height, k);
        assert HandedOn(start, inputs, centres, base, k) == HandedOn(start, i1, z1, base, k);
      } else {
        assert LinkAt(c2, inputs, centres, |i1|, mid, width, height, k - |c1|);
        assert HandedOn(start, inputs, centres, base, k) == HandedOn(mid, inputs, centres, |i1|, k - |c1|);
      }
    }
  }

  /** What a chain of calls logged from entry base on says entry by entry:
      one new input and centre per call; each input renders its call's frame
      with its call's budget and the colour step raised to that budget; the
      first renders from start's centre and every later one from the centre
      the call before it left; and the chain hands on the last call's centre
      and colour step. */
  lemma ChainedCalls(calls: seq<FrameCall>, inputs: seq<FrameInput>, centres: seq<(real, real)>,
                     base: nat, start: Carried, width: nat, height: nat)
    requires Chained(calls, inputs, centres, base, start, width, height)
    ensures |inputs| == base + |calls| && |centres| == base + |calls|
    ensures forall i :: base <= i < |inputs| ==>
      inputs[i].view.frame == calls[i - base].frame && inputs[i].view.maxIteration == calls[i - base].maxIteration &&
      inputs[i].width == width && inputs[i].height == height
    ensures |calls| > 0 ==>
      inputs[base].view.xpos == start.xpos && inputs[base].view.ypos == start.ypos &&
      inputs[base].colorStep == RaiseTo(start.colorStep, calls[0].maxIteration)
    ensures forall i :: base < i < |inputs| ==>
      inputs[i].view.xpos == centres[i - 1].0 && inputs[i].view.ypos == centres[i - 1].1 &&
      inputs[i].colorStep == RaiseTo(inputs[i - 1].colorStep, calls[i - base].maxIteration)
    ensures |calls| > 0 ==>
      HandedOn(start, inputs, centres, base, |calls|)
      == Carried(centres[|centres| - 1].0, centres[|centres| - 1].1, inputs[|inputs| - 1].colorStep)
  {
    forall i | base <= i < |inputs|
      ensures inputs[i].view.frame == calls[i - base].frame && inputs[i].view.maxIteration == calls[i - base].maxIteration
      ensures inputs[i].width == width && inputs[i].height == height
      ensures i > base ==>
        inputs[i].view.xpos == centres[i - 1].0 && inputs[i].view.ypos == centres[i - 1].1 &&
        inputs[i].colorStep == RaiseTo(inputs[i - 1].colorStep, calls[i - base].maxIteration)
    {
      assert LinkAt(calls, inputs, centres, base, start, width, height, i - base);
    }
    if |calls| > 0 {
      assert LinkAt(calls, inputs, centres, base, start, width, height, 0);
    }
  }

  /** Whatever the image, an encoded frame moves ypos to the middle row
      (height - 1) / 2 when the image is at least three rows high, and keeps
      it otherwise; a frame that is not encoded keeps the whole centre. */
  lemma CentreRow(env: Env, view: View, colorStep: real, width: nat, height: nat)
    ensures var b := env.bounds(view);
      FrameOutcome(env, view, colorStep, width, height) == Image ==>
        CentreAfter(env, view, colorStep, width, height).1
        == if height >= 3 then env.toPlane(b.ymin, b.ymax, height, (height - 1) / 2) else view.ypos
    ensures FrameOutcome(env, view, colorStep, width, height) != Image ==>
      CentreAfter(env, view, colorStep, width, height) == (view.xpos, view.ypos)
  {
    CentroidBounds(FrameGrid(env, view, FrameRamp(env, colorStep), width, height), width);
  }

  /** One call of createOne: the frame number of outputFile and the
      iteration budget in force. */
  datatype FrameCall = FrameCall(frame: int, maxIteration: int)

  /** The first k calls of main's first loop from budget m0: frame k is drawn
      after k decrements by f. */
  function FirstPass(m0: int, f: int, k: nat): (s: seq<FrameCall>)
    ensures |s| == k
  {
    if k == 0 then [] else FirstPass(m0, f, k - 1) + [FrameCall(k, m0 - k * f)]
  }

  /** The first k calls of main's second loop, entered after n frames with
      budget m1: its k-th call draws frame n + 1 + k after k increments by f. */
  function SecondPass(n: nat, m1: int, f: int, k: nat): (s: seq<FrameCall>)
    ensures |s| == k
  {
    if k == 0 then [] else SecondPass(n, m1, f, k - 1) + [FrameCall(n + 1 + k, m1 + k * f)]
  }

  /** One more turn of the first loop: the budget is lowered once more and
      the next frame's call joins the calls. */
  lemma FirstPassStep(m0: int, f: int, k: nat, frame: int, budget: int)
    requires frame == k + 1 && budget == m0 - k * f - f
    ensures budget == m0 - (k + 1) * f
    ensures FirstPass(m0, f, k + 1) == FirstPass(m0, f, k) + [FrameCall(frame, budget)]
  {
    assert (k + 1) * f == k * f + f;
  }

  /** One more turn of the second loop: the budget is raised once more and
      the next frame's call joins the calls. */
  lemma SecondPassStep(n: nat, m1: int, f: int, k: nat, frame: int, budget: int)
    requires frame == n + 2 + k && budget == m1 + k * f + f
    ensures budget == m1 + (k + 1) * f
    ensures SecondPass(n, m1, f, k + 1) == SecondPass(n, m1, f, k) + [FrameCall(frame, budget)]
  {
    assert (k + 1) * f == k * f + f;
  }

  /** How many calls main's second loop makes after n fades. */
  function SecondPassLength(n: nat): nat
  {
    if n == 0 then 0 else n - 1
  }

  /** Every createOne call main makes, in order, with numOfFades = n,
      iterFactor = f and initial budget m0. */
  function Schedule(n: nat, m0: int, f: int): seq<FrameCall>
  {
    FirstPass(m0, f, n) + SecondPass(n, m0 - n * f, f, SecondPassLength(n))
  }

  predicate IsPrefix(a: seq<FrameCall>, b: seq<FrameCall>)
  {
    |a| <= |b| && a == b[..|a|]
  }

  predicate StrictlyIncreasing(s: seq<int>)
  {
    forall i, j :: 0 <= i < j < |s| ==> s[i] < s[j]
  }

  /** Call k of the first pass draws frame k + 1 with budget m0 - (k + 1) * f. */
  lemma {:induction false} FirstPassAt(m0: int, f: int, n: nat, k: nat)
    requires k < n
    ensures FirstPass(m0, f, n)[k] == FrameCall(k + 1, m0 - (k + 1) * f)
  {
    if k < n - 1 {
      FirstPassAt(m0, f, n - 1, k);
    }
  }

  /** Call k of the second pass draws frame n + 2 + k with budget m1 + (k + 1) * f. */
  lemma {:induction false} SecondPassAt(n: nat, m1: int, f: int, len: nat, k: nat)
    requires k < len
    ensures SecondPass(n, m1, f, len)[k] == FrameCall(n + 2 + k, m1 + (k + 1) * f)
  {
    if k < len - 1 {
      SecondPassAt(n, m1, f, len - 1, k);
    }
  }

  /** The frames main writes: 1 .. n in the first pass, then n + 2 .. 2n;
      2n - 1 calls in all, frame n + 1 is never drawn, the frame numbers
      strictly increase, and the budget falls by f before each first-pass
      frame and rises by f before each second-pass one. */
  lemma ScheduleShape(n: nat, m0: int, f: int)
    ensures |Schedule(n, m0, f)| == if n == 0 then 0 else 2 * n - 1
    ensures forall k :: 0 <= k < |Schedule(n, m0, f)| ==>
      Schedule(n, m0, f)[k].frame == (if k < n then k + 1 else k + 2)
    ensures forall k :: 0 <= k < |Schedule(n, m0, f)| ==>
      Schedule(n, m0, f)[k].maxIteration == (if k < n then m0 - (k + 1) * f else m0 - n * f + (k + 1 - n) * f)
    ensures forall k :: 0 <= k < |Schedule(n, m0, f)| ==> Schedule(n, m0, f)[k].frame != n + 1
    ensures forall i, j :: 0 <= i < j < |Schedule(n, m0, f)| ==> Schedule(n, m0, f)[i].frame < Schedule(n, m0, f)[j].frame
  {
    var s := Schedule(n, m0, f);
    forall k | 0 <= k < |s|
      ensures s[k].frame == (if k < n then k + 1 else k + 2)
      ensures s[k].maxIteration == (if k < n then m0 - (k + 1) * f else m0 - n * f + (k + 1 - n) * f)
    {
      if k < n {
        FirstPassAt(m0, f, n, k);
      } else {
        SecondPassAt(n, m0 - n * f, f, SecondPassLength(n), k - n);
      }
    }
  }

  /** Stopping the first pass after k calls leaves a prefix of the schedule. */
  lemma {:induction false} FirstPassPrefix(m0: int, f: int, k: nat, n: nat)
    requires k <= n
    ensures FirstPass(m0, f, k) == FirstPass(m0, f, n)[..k]
  {
    if k < n {
      FirstPassPrefix(m0, f, k, n - 1);
    }
  }

  /** Stopping the second pass after k calls leaves a prefix of the schedule. */
  lemma {:induction false} SecondPassPrefix(n: nat, m1: int, f: int, k: nat, len: nat)
    requires k <= len
    ensures SecondPass(n, m1, f, k) == SecondPass(n, m1, f, len)[..k]
  {
    if k < len {
      SecondPassPrefix(n, m1, f, k, len - 1);
    }
  }

  /** The calls made up to a crash in either pass are a prefix of the schedule. */
  lemma CrashPrefix(n: nat, m0: int, f: int, k1: nat, k2: nat)
    requires k1 <= n && k2 <= SecondPassLength(n) && (k2 > 0 ==> k1 == n)
    ensures IsPrefix(FirstPass(m0, f, k1) + SecondPass(n, m0 - n * f, f, k2), Schedule(n, m0, f))
  {
    FirstPassPrefix(m0, f, k1, n);
    SecondPassPrefix(n, m0 - n * f, f, k2, SecondPassLength(n));
    var s := Schedule(n, m0, f);
    var first := FirstPass(m0, f, n);
    if k2 == 0 {
      assert FirstPass(m0, f, k1) + SecondPass(n, m0 - n * f, f, k2) == FirstPass(m0, f, k1);
      assert s[..k1] == first[..k1];
    } else {
      assert s[..n + k2] == first + SecondPass(n, m0 - n * f, f, SecondPassLength(n))[..k2];
    }
  }

  /** Frame numbers written in increasing order, all within [lo, hi]. */
  predicate Ascending(s: seq<int>, lo: int, hi: int)
  {
    StrictlyIncreasing(s) && forall k :: 0 <= k < |s| ==> lo <= s[k] <= hi
  }

  /** Writing a frame numbered above every earlier one keeps them ascending. */
  lemma AppendFrame(s: seq<int>, lo: int, hi: int, f: int)
    requires Ascending(s, lo, hi) && hi < f && lo <= f
    ensures Ascending(s + [f], lo, f)
  {
  }

  /** The frame numbers main can write: increasing, within 1 .. n or
      n + 2 .. 2n. */
  predicate WrittenFrames(s: seq<int>, n: int)
  {
    StrictlyIncreasing(s) && forall k :: 0 <= k < |s| ==> 1 <= s[k] <= n || n + 2 <= s[k] <= 2 * n
  }

  /** The frames written while zooming in, followed by those written while
      zooming out, increase throughout and skip frame n + 1. */
  lemma JoinAscending(a: seq<int>, b: seq<int>, n: int, hi: int)
    requires Ascending(a, 1, n) && Ascending(b, n + 2, hi) && (hi <= 2 * n || hi < n + 2)
    ensures WrittenFrames(a + b, n)
  {
    var c := a + b;
    forall i, j | 0 <= i < j < |c|
      ensures c[i] < c[j]
    {
      if j < |a| {
        assert c[i] == a[i] && c[j] == a[j];
      } else if i >= |a| {
        assert c[i] == b[i - |a|] && c[j] == b[j - |a|];
      } else {
        assert c[i] == a[i] && c[j] == b[j - |a|];
      }
    }
    forall k | 0 <= k < |c|
      ensures 1 <= c[k] <= n || n + 2 <= c[k] <= 2 * n
    {
      if k < |a| {
        assert c[k] == a[k];
      } else {
        assert c[k] == b[k - |a|];
      }
    }
  }

  /** The frame numbers of the calls whose frame was encoded, in call order. */
  function ImageFrames(calls: seq<FrameCall>, outs: seq<Outcome>): seq<int>
    requires |calls| == |outs|
  {
    if |calls| == 0 then []
    else ImageFrames(calls[..|calls| - 1], outs[..|outs| - 1])
         + if outs[|outs| - 1] == Image then [calls[|calls| - 1].frame] else []
  }

  /** One more call adds its frame exactly when that frame is encoded. */
  lemma ImageStep(calls: seq<FrameCall>, outs: seq<Outcome>, c: FrameCall, o: Outcome)
    requires |calls| == |outs|
    ensures ImageFrames(calls + [c], outs + [o]) == ImageFrames(calls, outs) + if o == Image then [c.frame] else []
  {
    assert (calls + [c])[..|calls|] == calls;
    assert (outs + [o])[..|outs|] == outs;
  }

  /** The encoded frames of two runs of calls, one after the other. */
  lemma {:induction false} ImageFramesAppend(a: seq<FrameCall>, p: seq<Outcome>, b: seq<FrameCall>, q: seq<Outcome>)
    requires |a| == |p| && |b| == |q|
    ensures ImageFrames(a + b, p + q) == ImageFrames(a, p) + ImageFrames(b, q)
  {
    if |b| == 0 {
      assert a + b == a && p + q == p;
    } else {
      var b', q' := b[..|b| - 1], q[..|q| - 1];
      ImageFramesAppend(a, p, b', q');
      assert a + b == (a + b') + [b[|b| - 1]];
      assert p + q == (p + q') + [q[|q| - 1]];
      ImageStep(a + b', p + q', b[|b| - 1], q[|q| - 1]);
    }
  }

  /** The frame numbers first, first + 1, ... of a run of consecutive
      frames, kept where the frame was encoded. */
  function Encoded(outs: seq<Outcome>, first: int): seq<int>
  {
    if |outs| == 0 then []
    else Encoded(outs[..|outs| - 1], first) + if outs[|outs| - 1] == Image then [first + |outs| - 1] else []
  }

  /** One more consecutive frame adds its number exactly when it is encoded. */
  lemma EncodedStep(outs: seq<Outcome>, o: Outcome, first: int)
    ensures Encoded(outs + [o], first) == Encoded(outs, first) + if o == Image then [first + |outs|] else []
  {
    assert (outs + [o])[..|outs|] == outs;
  }

  /** One more createOne call in a run of consecutive frames from first:
      its outcome joins the run's outcomes and its frame number joins the
      written frames exactly when it was encoded. */
  lemma RunStep(w0: seq<int>, w1: seq<int>, w2: seq<int>, c0: seq<Outcome>, c1: seq<Outcome>, c2: seq<Outcome>,
                outs: seq<Outcome>, o: Outcome, first: int)
    requires w1 == w0 + Encoded(outs, first) && c1 == c0 + outs
    requires c2 == c1 + [o] && w2 == w1 + if o == Image then [first + |outs|] else []
    ensures c2 == c0 + (outs + [o]) && w2 == w0 + Encoded(outs + [o], first)
  {
    EncodedStep(outs, o, first);
  }

  /** A run of calls that stopped at its first panic: no call but the last
      panicked, since a panic ends the program. */
  predicate PanicOnlyLast(outs: seq<Outcome>)
  {
    forall k :: 0 <= k < |outs| - 1 ==> outs[k] != Panic
  }

  /** A run without a panic followed by one that stopped at its first panic
      stopped at its first panic. */
  lemma PanicOnlyLastJoin(outs1: seq<Outcome>, outs2: seq<Outcome>)
    requires Panic !in outs1
    ensures PanicOnlyLast(outs2) ==> PanicOnlyLast(outs1 + outs2)
  {
    if PanicOnlyLast(outs2) {
      forall k | 0 <= k < |outs1 + outs2| - 1
        ensures (outs1 + outs2)[k] != Panic
      {
        if k < |outs1| {
          assert (outs1 + outs2)[k] == outs1[k];
        } else {
          assert (outs1 + outs2)[k] == outs2[k - |outs1|];
        }
      }
    }
  }

  /** The encoded frames of a run from first are ascending within the run. */
  lemma {:induction false} EncodedAscending(outs: seq<Outcome>, first: int)
    ensures Ascending(Encoded(outs, first), first, first + |outs| - 1)
  {
    if |outs| > 0 {
      var n := |outs| - 1;
      EncodedAscending(outs[..n], first);
      if outs[n] == Image {
        AppendFrame(Encoded(outs[..n], first), first, first + n - 1, first + n);
      }
    }
  }

  /** The first pass draws consecutive frames from 1. */
  lemma {:induction false} FirstPassEncoded(m0: int, f: int, k: nat, outs: seq<Outcome>)
    requires |outs| == k
    ensures ImageFrames(FirstPass(m0, f, k), outs) == Encoded(outs, 1)
  {
    if k > 0 {
      assert FirstPass(m0, f, k)[..k - 1] == FirstPass(m0, f, k - 1);
      FirstPassEncoded(m0, f, k - 1, outs[..k - 1]);
    }
  }

  /** The second pass draws consecutive frames from n + 2. */
  lemma {:induction false} SecondPassEncoded(n: nat, m1: int, f: int, k: nat, outs: seq<Outcome>)
    requires |outs| == k
    ensures ImageFrames(SecondPass(n, m1, f, k), outs) == Encoded(outs, n + 2)
  {
    if k > 0 {
      assert SecondPass(n, m1, f, k)[..k - 1] == SecondPass(n, m1, f, k - 1);
      SecondPassEncoded(n, m1, f, k - 1, outs[..k - 1]);
    }
  }

  /** A frame is among the encoded frames exactly when some call drew it
      and encoded it. */
  lemma {:induction false} ImageFramesIff(calls: seq<FrameCall>, outs: seq<Outcome>, f: int)
    requires |calls| == |outs|
    ensures f in ImageFrames(calls, outs) <==>
      exists k :: 0 <= k < |calls| && calls[k].frame == f && outs[k] == Image
  {
    if |calls| > 0 {
      var n := |calls| - 1;
      ImageFramesIff(calls[..n], outs[..n], f);
      if f in ImageFrames(calls[..n], outs[..n]) {
        var k :| 0 <= k < n && calls[..n][k].frame == f && outs[..n][k] == Image;
        assert calls[k].frame == f && outs[k] == Image;
      }
      if exists k :: 0 <= k < |calls| && calls[k].frame == f && outs[k] == Image {
        var k :| 0 <= k < |calls| && calls[k].frame == f && outs[k] == Image;
        if k < n {
          assert calls[..n][k].frame == f && outs[..n][k] == Image;
        }
      }
    }
  }

  /** Lowering the budget n times and raising it back once per call of the
      second pass leaves it one step below where it began, when n > 0. */
  lemma BudgetRestored(m0: int, n: nat, f: int)
    ensures m0 - n * f + SecondPassLength(n) * f == m0 - if n == 0 then 0 else f
  {
    if n > 0 {
      assert SecondPassLength(n) * f == n * f - f;
    }
  }

  /** What two appends add to a sequence is their concatenation. */
  lemma AppendTwice<T>(x0: seq<T>, x1: seq<T>, x2: seq<T>, a: seq<T>, b: seq<T>)
    requires x1 == x0 + a && x2 == x1 + b
    ensures |x0| <= |x2| && x2[|x0|..] == a + b && x2 == x0 + (a + b)
  {
    assert x2 == x0 + (a + b);
  }

  /** The frames the two loops write, ascending and never frame n + 1. */
  lemma PassesWritten(n: nat, q1: seq<Outcome>, q2: seq<Outcome>)
    requires |q1| <= n && |q2| <= SecondPassLength(n)
    ensures WrittenFrames(Encoded(q1, 1) + Encoded(q2, n + 2), n)
  {
    EncodedAscending(q1, 1);
    EncodedAscending(q2, n + 2);
    JoinAscending(Encoded(q1, 1), Encoded(q2, n + 2), n, n + 1 + |q2|);
  }

  /** main's two loops one after the other, the second run only when the
      first made all its calls, with outcomes q1 and q2: together their
      calls are a prefix of the schedule, all of it when neither stopped,
      and the frames they write are those of the calls that encoded their
      image, ascending and never frame n + 1. */
  lemma MainAfter(n: nat, m0: int, f: int, q1: seq<Outcome>, q2: seq<Outcome>, calls: seq<FrameCall>)
    requires |q1| <= n && |q2| <= SecondPassLength(n) && (|q2| > 0 ==> |q1| == n)
    requires calls == FirstPass(m0, f, |q1|) + SecondPass(n, m0 - n * f, f, |q2|)
    ensures |calls| == |q1 + q2| && IsPrefix(calls, Schedule(n, m0, f))
    ensures |q1| == n && |q2| == SecondPassLength(n) ==> calls == Schedule(n, m0, f)
    ensures Encoded(q1, 1) + Encoded(q2, n + 2) == ImageFrames(calls, q1 + q2)
    ensures WrittenFrames(ImageFrames(calls, q1 + q2), n)
  {
    var p1, p2 := FirstPass(m0, f, |q1|), SecondPass(n, m0 - n * f, f, |q2|);
    CrashPrefix(n, m0, f, |q1|, |q2|);
    FirstPassEncoded(m0, f, |q1|, q1);
    SecondPassEncoded(n, m0 - n * f, f, |q2|, q2);
    ImageFramesAppend(p1, q1, p2, q2);
    assert ImageFrames(calls, q1 + q2) == ImageFrames(p1, q1) + ImageFrames(p2, q2);
    PassesWritten(n, q1, q2);
  }

  /** The package-level state of mandelbrot.go that main, createOne and render
      update, with the output they produce recorded as sequences. */
  class Animation {
    var colorStep: real
    var xpos: real
    var ypos: real
    var width: nat
    var height: nat
    const imageSmoothness: nat
    var maxIteration: int
    /** The frame number in outputFile (in_progress/%04d.png); 0 before the first frame. */
    var outputFrame: int
    const numOfFades: nat
    const iterFactor: int
    /** Every createOne call, in order. */
    var frames: seq<FrameCall>
    /** The frame numbers whose image render encoded, in order. */
    var written: seq<int>
    /** What every createOne call rendered from, in order. */
    ghost var inputs: seq<FrameInput>
    /** What became of every createOne call, in order. */
    ghost var outcomes: seq<Outcome>
    /** The centre (xpos, ypos) every createOne call left, in order. */
    ghost var centres: seq<(real, real)>

    /** The calls logged so far had the outcomes and left the centres their
        inputs determine. */
    ghost predicate Faithful(env: Env)
      reads this`inputs, this`outcomes, this`centres
    {
      LogsAgree(env, inputs, outcomes, centres)
    }

    /** The state after flag parsing. */
    constructor (colorStep: real, xpos: real, ypos: real, width: nat, height: nat,
                 imageSmoothness: nat, maxIteration: int, numOfFades: nat, iterFactor: int)
      ensures this.colorStep == colorStep && this.xpos == xpos && this.ypos == ypos
      ensures this.width == width && this.height == height && this.imageSmoothness == imageSmoothness
      ensures this.maxIteration == maxIteration && this.numOfFades == numOfFades && this.iterFactor == iterFactor
      ensures outputFrame == 0 && frames == [] && written == []
      ensures inputs == [] && outcomes == [] && centres == []
    {
      this.colorStep, this.xpos, this.ypos := colorStep, xpos, ypos;
      this.width, this.height, this.imageSmoothness := width, height, imageSmoothness;
      this.maxIteration, this.numOfFades, this.iterFactor := maxIteration, numOfFades, iterFactor;
      outputFrame, frames, written := 0, [], [];
      inputs, outcomes, centres := [], [], [];
    }

    function CurrentView(): View
      reads this
    {
      View(xpos, ypos, outputFrame, maxIteration)
    }

    /** render: paints a fresh width x height image row by row, reduces the
        rows' edge means to middX and middY, moves xpos and ypos to them when
        they lie strictly inside the image, and encodes the image. When a
        mean divides by zero Go panics: ok is false and nothing is moved or
        written. */
    method Render(env: Env, colors: seq<Rgba>) returns (ok: bool, img: array2<Rgba>)
      modifies this`xpos, this`ypos, this`written
      ensures fresh(img) && img.Length0 == height && img.Length1 == width
      ensures var grid := FrameGrid(env, old(CurrentView()), colors, width, height);
        ok == CentroidOf(grid).Centre? &&
        (ok ==> forall y, x :: 0 <= y < height && 0 <= x < width ==> img[y, x] == Over(grid[y][x], Transparent)) &&
        (ok ==> 0 <= CentroidOf(grid).x < width && CentroidOf(grid).y == (height - 1) / 2)
      ensures var grid := FrameGrid(env, old(CurrentView()), colors, width, height);
        var b := env.bounds(old(CurrentView()));
        ok ==> xpos == if 0 < CentroidOf(grid).x < width
                       then env.toPlane(b.xmin, b.xmax, width, CentroidOf(grid).x) else old(xpos)
      ensures var b := env.bounds(old(CurrentView()));
        ok ==> ypos == if 0 < (height - 1) / 2 < height
                       then env.toPlane(b.ymin, b.ymax, height, (height - 1) / 2) else old(ypos)
      ensures !ok ==> xpos == old(xpos) && ypos == old(ypos)
      ensures written == old(written) + if ok then [outputFrame] else []
    {
      var view := CurrentView();
      ghost var grid := FrameGrid(env, view, colors, width, height);
      var b := env.bounds(view);
      img := new Rgba[height, width]((_, _) => Transparent);
      var xMiddle, yMiddle;
      ok, xMiddle, yMiddle := PaintRows(img, colors, env.pack, FrameCells(env, view));
      if !ok {
        return;
      }
      var middX, middY;
      ok, middX, middY := Reduce(grid, xMiddle, yMiddle);
      if !ok {
        return;
      }
      CentroidBounds(grid, width);
      if middX < width && middX > 0 {
        xpos := env.toPlane(b.xmin, b.xmax, width, middX);
      }
      if middY < height && middY > 0 {
        ypos := env.toPlane(b.ymin, b.ymax, height, middY);
      }
      written := written + [outputFrame];
      ok := true;
    }

    /** createOne: raises colorStep to the iteration budget, builds the ramp
        and renders only when the ramp is non-empty. ok is false when render
        panicked. */
    method CreateOne(env: Env) returns (ok: bool)
      modifies this`colorStep, this`xpos, this`ypos, this`written, this`frames
      ensures colorStep == if old(colorStep) < maxIteration as real then maxIteration as real else old(colorStep)
      ensures colorStep >= maxIteration as real && colorStep >= old(colorStep)
      ensures frames == old(frames) + [FrameCall(outputFrame, maxIteration)]
      ensures var outcome := FrameOutcome(env, old(CurrentView()), colorStep, width, height);
        ok == (outcome != Panic) &&
        written == old(written) + (if outcome == Image then [outputFrame] else []) &&
        (outcome == NoImage ==> xpos == old(xpos) && ypos == old(ypos))
      ensures (xpos, ypos) == CentreAfter(env, old(CurrentView()), colorStep, width, height)
    {
      ghost var view := CurrentView();
      if colorStep < maxIteration as real {
        colorStep := maxIteration as real;
      }
      frames := frames + [FrameCall(outputFrame, maxIteration)];
      var colors := InterpolateColors(env.palettes, env.paletteName, env.samples(colorStep), env.pack, env.cosine);
      assert colors == FrameRamp(env, colorStep);
      ok := true;
      if |colors| > 0 {
        var img;
        ok, img := Render(env, colors);
      }
    }

    /** One turn of either loop of main: sets the budget and the output
        frame number and calls createOne, which writes that frame or not.
        The call is logged with the view it rendered from, its outcome and
        the centre it left. */
    method DrawFrame(env: Env, frame: int, budget: int) returns (ok: bool)
      modifies this`maxIteration, this`outputFrame, this`colorStep, this`xpos, this`ypos, this`written,
               this`frames, this`inputs, this`outcomes, this`centres
      requires Faithful(env)
      ensures Faithful(env)
      ensures maxIteration == budget && outputFrame == frame
      ensures colorStep == if old(colorStep) < budget as real then budget as real else old(colorStep)
      ensures frames == old(frames) + [FrameCall(frame, budget)]
      ensures inputs == old(inputs) + [FrameInput(View(old(xpos), old(ypos), frame, budget), colorStep, width, height)]
      ensures |outcomes| > 0 && var outcome := outcomes[|outcomes| - 1];
        outcomes == old(outcomes) + [outcome] && ok == (outcome != Panic) &&
        written == old(written) + (if outcome == Image then [frame] else [])
      ensures centres == old(centres) + [(xpos, ypos)]
    {
      maxIteration := budget;
      outputFrame := frame;
      ghost var view := CurrentView();
      ok := CreateOne(env);
      ghost var d, outcome := FrameInput(view, colorStep, width, height), FrameOutcome(env, view, colorStep, width, height);
      LogsAppend(env, inputs, outcomes, centres, d, outcome, (xpos, ypos));
      inputs, outcomes, centres := inputs + [d], outcomes + [outcome], centres + [(xpos, ypos)];
    }

    /** DrawFrame as the next call of a run of calls for consecutive frames
        from first: the run so far made calls, had outcomes outs and wrote
        their encoded frames after the earlier entries fr0, c0 and w0, and
        the logs from entry base on hold these calls chained from start,
        after the entries i0 and z0; afterwards the run and the chain are
        the calls next, one call longer. */
    method NextFrame(env: Env, frame: int, budget: int, ghost first: int, ghost calls: seq<FrameCall>,
                     ghost next: seq<FrameCall>, ghost outs: seq<Outcome>,
                     ghost fr0: seq<FrameCall>, ghost c0: seq<Outcome>, ghost w0: seq<int>,
                     ghost base: nat, ghost start: Carried,
                     ghost i0: seq<FrameInput>, ghost z0: seq<(real, real)>)
      returns (ok: bool)
      modifies this`maxIteration, this`outputFrame, this`colorStep, this`xpos, this`ypos, this`written,
               this`frames, this`inputs, this`outcomes, this`centres
      requires Faithful(env)
      requires frame == first + |outs|
      requires frames == fr0 + calls && outcomes == c0 + outs && written == w0 + Encoded(outs, first)
      requires Chained(calls, inputs, centres, base, start, width, height)
      requires Carried(xpos, ypos, colorStep) == HandedOn(start, inputs, centres, base, |calls|)
      requires next == calls + [FrameCall(frame, budget)]
      requires i0 <= inputs && z0 <= centres
      requires Panic !in outs
      ensures Faithful(env)
      ensures maxIteration == budget && outputFrame == frame
      ensures frames == fr0 + next
      ensures |outcomes| > 0 && var outcome := outcomes[|outcomes| - 1];
        ok == (outcome != Panic) && outcomes == c0 + (outs + [outcome]) &&
        written == w0 + Encoded(outs + [outcome], first) && PanicOnlyLast(outs + [outcome])
      ensures i0 <= inputs && z0 <= centres
      ensures Chained(next, inputs, centres, base, start, width, height)
      ensures Carried(xpos, ypos, colorStep) == HandedOn(start, inputs, centres, base, |next|)
    {
      ghost var written0, outcomes0, inputs0, centres0 := written, outcomes, inputs, centres;
      ok := DrawFrame(env, frame, budget);
      ChainStep(calls, inputs0, centres0, base, start, width, height, FrameCall(frame, budget),
                inputs[|inputs| - 1], (xpos, ypos));
      RunStep(w0, written0, written, c0, outcomes0, outcomes, outs, outcomes[|outcomes| - 1], first);
      PanicOnlyLastJoin(outs, [outcomes[|outcomes| - 1]]);
      assert frames == fr0 + next;
    }

    /** main's first loop: draws frames 1 .. numOfFades, lowering the budget
        by iterFactor before each. drawn counts the createOne calls made;
        ok is false when one of them panicked, which ends the program. Each
        call renders its frame and budget from the centre the previous one
        left, the first from the centre on entry. */
    method ZoomIn(env: Env) returns (ok: bool, drawn: nat, ghost outs: seq<Outcome>)
      modifies this`maxIteration, this`outputFrame, this`colorStep, this`xpos, this`ypos, this`written,
               this`frames, this`inputs, this`outcomes, this`centres
      requires Faithful(env)
      ensures Faithful(env)
      ensures drawn <= numOfFades && (ok ==> drawn == numOfFades) && (!ok ==> drawn > 0)
      ensures frames == old(frames) + FirstPass(old(maxIteration), iterFactor, drawn)
      ensures maxIteration == old(maxIteration) - drawn * iterFactor
      ensures outcomes == old(outcomes) + outs && |outs| == drawn
      ensures ok == (Panic !in outs) && (!ok ==> outcomes[|outcomes| - 1] == Panic && PanicOnlyLast(outs))
      ensures written == old(written) + Encoded(outs, 1)
      ensures Ascending(Encoded(outs, 1), 1, drawn)
      ensures var start := Carried(old(xpos), old(ypos), old(colorStep));
        Chained(FirstPass(old(maxIteration), iterFactor, drawn), inputs, centres, |old(inputs)|, start, width, height) &&
        Carried(xpos, ypos, colorStep) == HandedOn(start, inputs, centres, |old(inputs)|, drawn)
    {
      ghost var m0, fr0, c0, w0 := maxIteration, frames, outcomes, written;
      ghost var base, start := |inputs|, Carried(xpos, ypos, colorStep);
      outs := [];
      var numOfDrawn := 0;
      ok := true;
      while true
        invariant ok && numOfDrawn == |outs| <= numOfFades
        invariant frames == fr0 + FirstPass(m0, iterFactor, |outs|)
        invariant maxIteration == m0 - |outs| * iterFactor
        invariant outcomes == c0 + outs && Panic !in outs
        invariant Faithful(env)
        invariant written == w0 + Encoded(outs, 1)
        invariant Chained(FirstPass(m0, iterFactor, |outs|), inputs, centres, base, start, width, height)
        invariant Carried(xpos, ypos, colorStep) == HandedOn(start, inputs, centres, base, |outs|)
        decreases numOfFades - numOfDrawn
      {
        numOfDrawn := numOfDrawn + 1;
        if numOfDrawn > numOfFades {
          break;
        }
        FirstPassStep(m0, iterFactor, |outs|, numOfDrawn, maxIteration - iterFactor);
        ghost var calls, next := FirstPass(m0, iterFactor, |outs|), FirstPass(m0, iterFactor, |outs| + 1);
        ok := NextFrame(env, numOfDrawn, maxIteration - iterFactor, 1, calls, next, outs, fr0, c0, w0,
                        base, start, [], []);
        outs := outs + [outcomes[|outcomes| - 1]];
        if !ok {
          break;
        }
      }
      drawn := if ok then numOfDrawn - 1 else numOfDrawn;
      EncodedAscending(outs, 1);
    }

    /** main's second loop, entered with numOfDrawn = numOfFades + 1: the
        guarded increment fires on every turn, so it draws frames
        numOfFades + 2 .. 2 * numOfFades, raising the budget by iterFactor
        before each. drawn counts the createOne calls made; ok is false when
        one of them panicked. Each call renders its frame and budget from
        the centre the previous one left, the first from the centre on
        entry, and the log entries of earlier calls are kept. */
    method ZoomOut(env: Env) returns (ok: bool, drawn: nat, ghost outs: seq<Outcome>)
      modifies this`maxIteration, this`outputFrame, this`colorStep, this`xpos, this`ypos, this`written,
               this`frames, this`inputs, this`outcomes, this`centres
      requires Faithful(env)
      ensures Faithful(env)
      ensures drawn <= SecondPassLength(numOfFades) && (ok ==> drawn == SecondPassLength(numOfFades))
      ensures !ok ==> drawn > 0
      ensures frames == old(frames) + SecondPass(numOfFades, old(maxIteration), iterFactor, drawn)
      ensures maxIteration == old(maxIteration) + drawn * iterFactor
      ensures outcomes == old(outcomes) + outs && |outs| == drawn
      ensures ok == (Panic !in outs) && (!ok ==> outcomes[|outcomes| - 1] == Panic && PanicOnlyLast(outs))
      ensures written == old(written) + Encoded(outs, numOfFades + 2)
      ensures Ascending(Encoded(outs, numOfFades + 2), numOfFades + 2, numOfFades + 1 + drawn)
      ensures old(inputs) <= inputs && old(centres) <= centres
      ensures var start := Carried(old(xpos), old(ypos), old(colorStep));
        Chained(SecondPass(numOfFades, old(maxIteration), iterFactor, drawn), inputs, centres, |old(inputs)|, start, width, height) &&
        Carried(xpos, ypos, colorStep) == HandedOn(start, inputs, centres, |old(inputs)|, drawn)
    {
      ghost var m1, fr0, c0, w0 := maxIteration, frames, outcomes, written;
      ghost var i0, z0, base, start := inputs, centres, |inputs|, Carried(xpos, ypos, colorStep);
      outs := [];
      var numOfDrawn := numOfFades + 1;
      ok := true;
      while true
        invariant ok && numOfDrawn == numOfFades + 1 + |outs| && |outs| <= SecondPassLength(numOfFades)
        invariant frames == fr0 + SecondPass(numOfFades, m1, iterFactor, |outs|)
        invariant maxIteration == m1 + |outs| * iterFactor
        invariant outcomes == c0 + outs && Panic !in outs
        invariant Faithful(env)
        invariant written == w0 + Encoded(outs, numOfFades + 2)
        invariant i0 <= inputs && z0 <= centres
        invariant Chained(SecondPass(numOfFades, m1, iterFactor, |outs|), inputs, centres, base, start, width, height)
        invariant Carried(xpos, ypos, colorStep) == HandedOn(start, inputs, centres, base, |outs|)
        decreases 2 * numOfFades + 1 - numOfDrawn
      {
        if numOfDrawn != numOfFades {
          numOfDrawn := numOfDrawn + 1;
        }
        assert numOfDrawn == numOfFades + 2 + |outs|;
        if numOfDrawn > numOfFades * 2 {
          break;
        }
        SecondPassStep(numOfFades, m1, iterFactor, |outs|, numOfDrawn, maxIteration + iterFactor);
        ghost var calls, next := SecondPass(numOfFades, m1, iterFactor, |outs|), SecondPass(numOfFades, m1, iterFactor, |outs| + 1);
        ok := NextFrame(env, numOfDrawn, maxIteration + iterFactor, numOfFades + 2, calls, next, outs, fr0, c0, w0,
                        base, start, i0, z0);
        outs := outs + [outcomes[|outcomes| - 1]];
        if !ok {
          break;
        }
      }
      drawn := numOfDrawn - numOfFades - if ok then 2 else 1;
      EncodedAscending(outs, numOfFades + 2);
    }

    /** main's two loops: draws numOfFades frames zooming in, then zooms back
        out (frame numOfFades + 1 is never drawn). calls and outs are the
        createOne calls made and what became of them; completed is false
        when a render panicked, which ends the program. Every call renders
        from the centre the previous call left, the first from the centre
        on entry. */
    method Zoom(env: Env) returns (completed: bool, ghost calls: seq<FrameCall>, ghost outs: seq<Outcome>)
      modifies this`maxIteration, this`outputFrame, this`colorStep, this`xpos, this`ypos, this`written,
               this`frames, this`inputs, this`outcomes, this`centres
      requires Faithful(env)
      ensures Faithful(env)
      ensures frames == old(frames) + calls && outcomes == old(outcomes) + outs && |outs| == |calls|
      ensures IsPrefix(calls, Schedule(numOfFades, old(maxIteration), iterFactor))
      ensures completed ==> calls == Schedule(numOfFades, old(maxIteration), iterFactor)
      ensures completed ==> maxIteration == old(maxIteration) - if numOfFades == 0 then 0 else iterFactor
      ensures completed == (Panic !in outs)
      ensures !completed ==> |outs| > 0 && outs[|outs| - 1] == Panic && PanicOnlyLast(outs)
      ensures written == old(written) + ImageFrames(calls, outs) && WrittenFrames(ImageFrames(calls, outs), numOfFades)
      ensures var start := Carried(old(xpos), old(ypos), old(colorStep));
        Chained(calls, inputs, centres, |old(inputs)|, start, width, height) &&
        Carried(xpos, ypos, colorStep) == HandedOn(start, inputs, centres, |old(inputs)|, |calls|)
    {
      ghost var m0, base, start := maxIteration, |inputs|, Carried(xpos, ypos, colorStep);
      ghost var frames0, outcomes0, written0 := frames, outcomes, written;
      var ok, drawnIn, outsIn := ZoomIn(env);
      ghost var frames1, outcomes1, written1 := frames, outcomes, written;
      ghost var callsIn := FirstPass(m0, iterFactor, drawnIn);
      if ok {
        ghost var inputs1, centres1 := inputs, centres;
        var drawnOut; ghost var outsOut;
        ok, drawnOut, outsOut := ZoomOut(env);
        ghost var callsOut := SecondPass(numOfFades, m0 - numOfFades * iterFactor, iterFactor, drawnOut);
        ChainJoin(callsIn, callsOut, inputs1, centres1, inputs, centres, base, start, width, height);
        PanicOnlyLastJoin(outsIn, outsOut);
        calls, outs := callsIn + callsOut, outsIn + outsOut;
        AppendTwice(frames0, frames1, frames, callsIn, callsOut);
        AppendTwice(outcomes0, outcomes1, outcomes, outsIn, outsOut);
        AppendTwice(written0, written1, written, Encoded(outsIn, 1), Encoded(outsOut, numOfFades + 2));
        MainAfter(numOfFades, m0, iterFactor, outsIn, outsOut, calls);
        BudgetRestored(m0, numOfFades, iterFactor);
      } else {
        calls, outs := callsIn, outsIn;
        assert calls == callsIn + SecondPass(numOfFades, m0 - numOfFades * iterFactor, iterFactor, 0);
        assert outs == outsIn + [] && Encoded([], numOfFades + 2) == [];
        MainAfter(numOfFades, m0, iterFactor, outsIn, [], calls);
      }
      completed := ok;
    }

    /** main: scales the image by the smoothness, then runs the two loops. */
    method Run(env: Env) returns (completed: bool, ghost calls: seq<FrameCall>, ghost outs: seq<Outcome>)
      modifies this
      requires Faithful(env)
      ensures Faithful(env)
      ensures width == old(width) * imageSmoothness && height == old(height) * imageSmoothness
      ensures frames == old(frames) + calls && outcomes == old(outcomes) + outs && |outs| == |calls|
      ensures IsPrefix(calls, Schedule(numOfFades, old(maxIteration), iterFactor))
      ensures completed ==> calls == Schedule(numOfFades, old(maxIteration), iterFactor)
      ensures completed ==> maxIteration == old(maxIteration) - if numOfFades == 0 then 0 else iterFactor
      ensures completed == (Panic !in outs)
      ensures !completed ==> |outs| > 0 && outs[|outs| - 1] == Panic && PanicOnlyLast(outs)
      ensures written == old(written) + ImageFrames(calls, outs) && WrittenFrames(ImageFrames(calls, outs), numOfFades)
      ensures var start := Carried(old(xpos), old(ypos), old(colorStep));
        Chained(calls, inputs, centres, |old(inputs)|, start, width, height) &&
        Carried(xpos, ypos, colorStep) == HandedOn(start, inputs, centres, |old(inputs)|, |calls|)
    {
      width := width * imageSmoothness;
      height := height * imageSmoothness;
      completed, calls, outs := Zoom(env);
    }
  }
}
