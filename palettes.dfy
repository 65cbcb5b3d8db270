// The control skeleton of interpolateColors (mandelbrot.go): the palette
// keyword filter, the per-stop step and packed-colour lists, the bracket
// search over the sample positions, and the unpacking into a colour ramp.
// The palette table, the sample positions, rgbaToUint and the floating-point
// cosine interpolation are parameters.

module Palettes {
  import opened Colour
  import Sums

  /** A palette colour stop: its declared position (0.0 when unspecified)
      and its colour. */
  datatype Stop = Stop(step: real, colour: Rgba)

  /** A named palette of the palette table. */
  datatype Palette = Palette(keyword: string, colours: seq<Stop>)

  /** The lists interpolateColors accumulates over the whole table: steps,
      cols, interpolated and the resulting colours. */
  datatype Acc = Acc(steps: seq<real>, cols: seq<Word>, interpolated: seq<Word>, ramp: seq<Rgba>)

  const EmptyAcc: Acc := Acc([], [], [], [])

  /** The position given to an unspecified stop: (index + 1) / count cut to
      two decimals. */
  function AutoStep(index: nat, count: nat): (step: real)
    requires index < count
    ensures 0.0 <= step <= 1.0
  {
    Sums.QuotientAtMost((index + 1) * 100, count, 100);
    ((index + 1) * 100 / count) as real / 100.0
  }

  /** The position recorded for stop index. */
  function StopStep(stops: seq<Stop>, index: nat): real
    requires index < |stops|
  {
    if stops[index].step == 0.0 && index != 0 then AutoStep(index, |stops|) else stops[index].step
  }

  /** The positions of the first n stops. */
  function Steps(stops: seq<Stop>, n: nat): (s: seq<real>)
    requires n <= |stops|
    ensures |s| == n
  {
    if n == 0 then [] else Steps(stops, n - 1) + [StopStep(stops, n - 1)]
  }

  /** The packed colours of the first n stops. */
  function Cols(stops: seq<Stop>, pack: Rgba -> Word, n: nat): (s: seq<Word>)
    requires n <= |stops|
    ensures |s| == n
  {
    if n == 0 then [] else Cols(stops, pack, n - 1) + [pack(stops[n - 1].colour)]
  }

  /** How many adjacent stop pairs the bracket loop visits: len(v.Colors) - 1,
      or none for an empty palette. */
  function Pairs(m: nat): nat
  {
    if m == 0 then 0 else m - 1
  }

  /** The colours the bracket loop appends for sample position i over the
      first n stop pairs: one for each pair j with steps[j] <= i < steps[j + 1],
      from the opaque cosine interpolation of cols[j + 1] and cols[j]. */
  function Brackets(steps: seq<real>, cols: seq<Word>, cosine: (Word, Word, real) -> Word, i: real, n: nat)
    : seq<Word>
    requires n == 0 || (n < |steps| && n < |cols|)
  {
    if n == 0 then []
    else
      var j := n - 1;
      Brackets(steps, cols, cosine, i, j) +
        if i >= steps[j] && i < steps[j + 1]
        then [cosine(cols[j + 1], cols[j], (i - steps[j]) / (steps[j + 1] - steps[j]))]
        else []
  }

  /** The colours appended for the first k sample positions. */
  function Sampled(steps: seq<real>, cols: seq<Word>, cosine: (Word, Word, real) -> Word,
                   samples: seq<real>, pairs: nat, k: nat): seq<Word>
    requires k <= |samples|
    requires pairs == 0 || (pairs < |steps| && pairs < |cols|)
  {
    if k == 0 then []
    else Sampled(steps, cols, cosine, samples, pairs, k - 1) + Brackets(steps, cols, cosine, samples[k - 1], pairs)
  }

  /** The unpacking loop: every packed word as a colour, in order. */
  function Unpacked(words: seq<Word>): (c: seq<Rgba>)
    ensures |c| == |words|
  {
    seq(|words|, q requires 0 <= q < |words| => ToRgba(words[q]))
  }

  /** The effect of one palette of the table on the accumulated lists. The
      bracket search runs only when the step and colour lists have exactly
      as many entries as this palette has stops. */
  function Visit(acc: Acc, v: Palette, name: string, samples: seq<real>,
                 pack: Rgba -> Word, cosine: (Word, Word, real) -> Word): Acc
  {
    if v.keyword != name then acc
    else
      var m := |v.colours|;
      var steps := acc.steps + Steps(v.colours, m);
      var cols := acc.cols + Cols(v.colours, pack, m);
      var interpolated :=
        if m == |steps| && m == |cols|
        then acc.interpolated + Sampled(steps, cols, cosine, samples, Pairs(m), |samples|)
        else acc.interpolated;
      Acc(steps, cols, interpolated, acc.ramp + Unpacked(interpolated))
  }

  /** The lists after the first p palettes of the table. */
  function Resolve(palettes: seq<Palette>, name: string, samples: seq<real>,
                   pack: Rgba -> Word, cosine: (Word, Word, real) -> Word, p: nat): Acc
    requires p <= |palettes|
  {
    if p == 0 then EmptyAcc
    else Visit(Resolve(palettes, name, samples, pack, cosine, p - 1), palettes[p - 1], name, samples, pack, cosine)
  }

  /** The colour ramp interpolateColors returns. */
  function Ramp(palettes: seq<Palette>, name: string, samples: seq<real>,
                pack: Rgba -> Word, cosine: (Word, Word, real) -> Word): seq<Rgba>
  {
    Resolve(palettes, name, samples, pack, cosine, |palettes|).ramp
  }

  /** The per-stop loop of interpolateColors: appends each stop's position
      to steps and its packed colour to cols. */
  method AppendStops(v: Palette, pack: Rgba -> Word, steps0: seq<real>, cols0: seq<Word>)
    returns (steps: seq<real>, cols: seq<Word>)
    ensures steps == steps0 + Steps(v.colours, |v.colours|)
    ensures cols == cols0 + Cols(v.colours, pack, |v.colours|)
  {
    steps, cols := steps0, cols0;
    for index := 0 to |v.colours|
      invariant steps == steps0 + Steps(v.colours, index)
      invariant cols == cols0 + Cols(v.colours, pack, index)
    {
      var col := v.colours[index];
      if col.step == 0.0 && index != 0 {
        steps := steps + [AutoStep(index, |v.colours|)];
      } else {
        steps := steps + [col.step];
      }
      cols := cols + [pack(col.colour)];
    }
  }

  /** The bracket search for one sample position i over the m - 1 adjacent
      stop pairs: each pair that brackets i contributes the cosine blend of
      its two colours. */
  method BracketSearch(steps: seq<real>, cols: seq<Word>, m: nat, i: real,
                       cosine: (Word, Word, real) -> Word, interpolated0: seq<Word>)
    returns (interpolated: seq<Word>)
    requires |steps| == m && |cols| == m
    ensures interpolated == interpolated0 + Brackets(steps, cols, cosine, i, Pairs(m))
  {
    interpolated := interpolated0;
    var j := 0;
    while j < m - 1
      invariant 0 <= j <= Pairs(m)
      invariant interpolated == interpolated0 + Brackets(steps, cols, cosine, i, j)
    {
      if i >= steps[j] && i < steps[j + 1] {
        var min, max := steps[j], steps[j + 1];
        var minColor, maxColor := cols[j], cols[j + 1];
        interpolated := interpolated + [cosine(maxColor, minColor, (i - min) / (max - min))];
      }
      j := j + 1;
    }
  }

  /** The sample loop of interpolateColors, for a palette of m stops whose
      step and colour lists are of length m: the bracket search for every
      sample position in turn. */
  method SampleRamp(steps: seq<real>, cols: seq<Word>, m: nat, samples: seq<real>,
                    cosine: (Word, Word, real) -> Word, interpolated0: seq<Word>)
    returns (interpolated: seq<Word>)
    requires |steps| == m && |cols| == m
    ensures interpolated == interpolated0 + Sampled(steps, cols, cosine, samples, Pairs(m), |samples|)
  {
    interpolated := interpolated0;
    for k := 0 to |samples|
      invariant interpolated == interpolated0 + Sampled(steps, cols, cosine, samples, Pairs(m), k)
    {
      interpolated := BracketSearch(steps, cols, m, samples[k], cosine, interpolated);
    }
  }

  /** The unpacking loop of interpolateColors: the three high bytes of every
      packed word, with alpha 0xff, appended in order. */
  method AppendUnpacked(interpolated: seq<Word>, colours0: seq<Rgba>) returns (colours: seq<Rgba>)
    ensures colours == colours0 + Unpacked(interpolated)
  {
    colours := colours0;
    for q := 0 to |interpolated|
      invariant colours == colours0 + Unpacked(interpolated[..q])
    {
      var pixelValue := interpolated[q];
      var r := (pixelValue / 0x100_0000) % 0x100;
      var g := (pixelValue / 0x1_0000) % 0x100;
      var b := (pixelValue / 0x100) % 0x100;
      var a := 0xff;
      colours := colours + [Rgba(r, g, b, a)];
    }
    assert interpolated[..|interpolated|] == interpolated;
  }

  /** interpolateColors, over a given palette table and sample positions. */
  method InterpolateColors(palettes: seq<Palette>, paletteCode: string, samples: seq<real>,
                           pack: Rgba -> Word, cosine: (Word, Word, real) -> Word)
    returns (interpolatedColors: seq<Rgba>)
    ensures interpolatedColors == Ramp(palettes, paletteCode, samples, pack, cosine)
  {
    var steps: seq<real> := [];
    var cols: seq<Word> := [];
    var interpolated: seq<Word> := [];
    interpolatedColors := [];
    for p := 0 to |palettes|
      invariant Acc(steps, cols, interpolated, interpolatedColors)
        == Resolve(palettes, paletteCode, samples, pack, cosine, p)
    {
      var v := palettes[p];
      if v.keyword == paletteCode {
        steps, cols := AppendStops(v, pack, steps, cols);
        if |v.colours| == |steps| && |v.colours| == |cols| {
          interpolated := SampleRamp(steps, cols, |v.colours|, samples, cosine, interpolated);
        }
        interpolatedColors := AppendUnpacked(interpolated, interpolatedColors);
      }
    }
  }

  /** With no palette keyword equal to the name, nothing is accumulated. */
  lemma {:induction false} NoMatchResolvesEmpty(palettes: seq<Palette>, name: string, samples: seq<real>,
                                                pack: Rgba -> Word, cosine: (Word, Word, real) -> Word, p: nat)
    requires p <= |palettes|
    requires forall k :: 0 <= k < p ==> palettes[k].keyword != name
    ensures Resolve(palettes, name, samples, pack, cosine, p) == EmptyAcc
  {
    if p > 0 {
      NoMatchResolvesEmpty(palettes, name, samples, pack, cosine, p - 1);
    }
  }

  /** An unknown palette name yields an empty ramp. */
  lemma NoMatchEmptyRamp(palettes: seq<Palette>, name: string, samples: seq<real>,
                         pack: Rgba -> Word, cosine: (Word, Word, real) -> Word)
    requires forall k :: 0 <= k < |palettes| ==> palettes[k].keyword != name
    ensures Ramp(palettes, name, samples, pack, cosine) == []
  {
    NoMatchResolvesEmpty(palettes, name, samples, pack, cosine, |palettes|);
  }

  /** Every colour accumulated after the first p palettes is fully opaque. */
  lemma {:induction false} ResolveOpaque(palettes: seq<Palette>, name: string, samples: seq<real>,
                                         pack: Rgba -> Word, cosine: (Word, Word, real) -> Word, p: nat)
    requires p <= |palettes|
    ensures forall c :: c in Resolve(palettes, name, samples, pack, cosine, p).ramp ==> c.a == 0xff
  {
    if p > 0 {
      ResolveOpaque(palettes, name, samples, pack, cosine, p - 1);
    }
  }

  /** Every colour of the ramp is fully opaque. */
  lemma RampOpaque(palettes: seq<Palette>, name: string, samples: seq<real>,
                   pack: Rgba -> Word, cosine: (Word, Word, real) -> Word)
    ensures forall c :: c in Ramp(palettes, name, samples, pack, cosine) ==> c.a == 0xff
  {
    ResolveOpaque(palettes, name, samples, pack, cosine, |palettes|);
  }

  /** The ramp of one palette found alone in an empty accumulator: the
      unpacked cosine samples over its own stop positions and colours. */
  function PaletteRamp(v: Palette, samples: seq<real>, pack: Rgba -> Word, cosine: (Word, Word, real) -> Word)
    : seq<Rgba>
  {
    var m := |v.colours|;
    Unpacked(Sampled(Steps(v.colours, m), Cols(v.colours, pack, m), cosine, samples, Pairs(m), |samples|))
  }

  /** Palettes after the only matching one change nothing. */
  lemma {:induction false} ResolveAfterSole(palettes: seq<Palette>, name: string, samples: seq<real>,
                                            pack: Rgba -> Word, cosine: (Word, Word, real) -> Word, t: nat, p: nat)
    requires t < p <= |palettes|
    requires forall k :: t < k < |palettes| ==> palettes[k].keyword != name
    ensures Resolve(palettes, name, samples, pack, cosine, p) == Resolve(palettes, name, samples, pack, cosine, t + 1)
  {
    if p > t + 1 {
      ResolveAfterSole(palettes, name, samples, pack, cosine, t, p - 1);
    }
  }

  /** When exactly one palette carries the name, the ramp is that palette's
      own ramp. */
  lemma SoleMatchRamp(palettes: seq<Palette>, name: string, samples: seq<real>,
                      pack: Rgba -> Word, cosine: (Word, Word, real) -> Word, t: nat)
    requires t < |palettes| && palettes[t].keyword == name
    requires forall k :: 0 <= k < |palettes| && k != t ==> palettes[k].keyword != name
    ensures Ramp(palettes, name, samples, pack, cosine) == PaletteRamp(palettes[t], samples, pack, cosine)
  {
    NoMatchResolvesEmpty(palettes, name, samples, pack, cosine, t);
    ResolveAfterSole(palettes, name, samples, pack, cosine, t, |palettes|);
    var v := palettes[t];
    var m := |v.colours|;
    assert [] + Steps(v.colours, m) == Steps(v.colours, m);
    assert [] + Cols(v.colours, pack, m) == Cols(v.colours, pack, m);
  }

  /** A later palette under the same name, once steps already holds
      entries: no sample is taken, and the unpacking loop appends the
      accumulated samples once more. */
  lemma VisitAgain(acc: Acc, w: Palette, samples: seq<real>,
                   pack: Rgba -> Word, cosine: (Word, Word, real) -> Word)
    requires |acc.steps| > 0
    ensures Visit(acc, w, w.keyword, samples, pack, cosine).interpolated == acc.interpolated
    ensures Visit(acc, w, w.keyword, samples, pack, cosine).ramp == acc.ramp + Unpacked(acc.interpolated)
  {
  }

  /** Two non-empty palettes under the same name: the step list no longer
      matches the second palette's size, so no new samples are taken, yet the
      unpacking loop runs again over the first palette's samples; the ramp
      holds the first palette's ramp twice. */
  lemma RepeatedKeywordRamp(v: Palette, w: Palette, samples: seq<real>,
                            pack: Rgba -> Word, cosine: (Word, Word, real) -> Word)
    requires v.keyword == w.keyword && |v.colours| > 0
    ensures Ramp([v, w], v.keyword, samples, pack, cosine)
         == PaletteRamp(v, samples, pack, cosine) + PaletteRamp(v, samples, pack, cosine)
  {
    var m := |v.colours|;
    var first := Visit(EmptyAcc, v, v.keyword, samples, pack, cosine);
    assert [] + Steps(v.colours, m) == Steps(v.colours, m);
    assert [] + Cols(v.colours, pack, m) == Cols(v.colours, pack, m);
    assert first.ramp == PaletteRamp(v, samples, pack, cosine);
    assert first.ramp == Unpacked(first.interpolated);
    assert Resolve([v, w], v.keyword, samples, pack, cosine, 1) == first;
    VisitAgain(first, w, samples, pack, cosine);
  }
}
