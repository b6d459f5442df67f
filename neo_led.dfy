/**
 * The status LEDs: a strip of 21 NeoPixels and the light patterns played on
 * it. The pattern functions change the pixel buffer in place and push it to
 * the strip with `write`; here each `write` records a copy of the buffer in
 * `frames`, and the waits between writes are not modelled.
 *
 * At load time the module also builds `arra`, a sawtooth table of
 * intensities, and `rain`, the colour triples the rainbow pattern scrolls
 * through.
 */
module NeoLed {
  import opened Wrappers

  type Color = (int, int, int)

  /** `leds`: the strip length. */
  const Leds: nat := 21

  const Red: Color := (255, 0, 0)
  const Green: Color := (0, 255, 0)
  const Blue: Color := (0, 0, 255)
  const White: Color := (255, 255, 255)
  const GreenWeak: Color := (0, 10, 0)
  const YellowWeak: Color := (5, 5, 0)
  const MagentaWeak: Color := (10, 0, 10)
  const Black: Color := (0, 0, 0)

  predicate ValidColor(c: Color) {
    0 <= c.0 <= 255 && 0 <= c.1 <= 255 && 0 <= c.2 <= 255
  }

  /** Every predefined colour is a valid 8-bit RGB triple. */
  lemma PaletteValid()
    ensures forall c :: c in [Red, Green, Blue, White, GreenWeak, YellowWeak, MagentaWeak, Black] ==> ValidColor(c)
  {
  }

  // ---------------------------------------------------------------------
  // The rainbow tables
  // ---------------------------------------------------------------------

  /**
   * Entry k of `arra`: 10, then five periods of 15 entries, each falling
   * 8, 6, 4, 2, 0, staying at 0 five times and rising 2, 4, 6, 8, 10.
   */
  function ArraAt(k: nat): int {
    if k == 0 then 10
    else
      var p := (k - 1) % 15;
      if p < 5 then 8 - 2 * p
      else if p < 10 then 0
      else 2 * (p - 9)
  }

  /** The table is even, within [0, 10], and repeats every 15 entries. */
  lemma ArraShape(k: nat)
    ensures ArraAt(k) % 2 == 0 && 0 <= ArraAt(k) <= 10
    ensures ArraAt(k + 15) == ArraAt(k)
  {
    if k > 0 {
      assert (k + 15 - 1) % 15 == (k - 1) % 15;
    }
  }

  /** Entry 15 * i + 1 + j of the table is position j of period i. */
  lemma ArraPosition(i: nat, j: nat)
    requires j < 15
    ensures (15 * i + 1 + j - 1) % 15 == j
  {
    assert 15 * i + j == j + 15 * i;
  }

  /**
   * `arra`, built as the module does: a counter `a` walks down by 2 five
   * times, the table then gets five zeros, and `a` walks back up, five
   * times over. The counter is back at 10 after every period.
   */
  method BuildArra() returns (arra: seq<int>)
    ensures |arra| == 1 + 5 * 15
    ensures forall k :: 0 <= k < |arra| ==> arra[k] == ArraAt(k)
  {
    var a := 10;
    arra := [a];
    for i := 0 to 5
      invariant a == 10 && |arra| == 1 + 15 * i
      invariant forall k :: 0 <= k < |arra| ==> arra[k] == ArraAt(k)
    {
      for j := 0 to 5
        invariant a == 10 - 2 * j && |arra| == 1 + 15 * i + j
        invariant forall k :: 0 <= k < |arra| ==> arra[k] == ArraAt(k)
      {
        ArraPosition(i, j);
        arra := arra + [a - 2];
        a := a - 2;
      }
      for j := 0 to 5
        invariant a == 0 && |arra| == 1 + 15 * i + 5 + j
        invariant forall k :: 0 <= k < |arra| ==> arra[k] == ArraAt(k)
      {
        ArraPosition(i, 5 + j);
        arra := arra + [0];
      }
      for j := 0 to 5
        invariant a == 2 * j && |arra| == 1 + 15 * i + 10 + j
        invariant forall k :: 0 <= k < |arra| ==> arra[k] == ArraAt(k)
      {
        ArraPosition(i, 10 + j);
        arra := arra + [a + 2];
        a := a + 2;
      }
    }
  }

  /** `rain`: entry i mixes the table at i, i + 10 and i + 5 into (red, green, blue). */
  method BuildRain(arra: seq<int>) returns (rain: seq<Color>)
    ensures |rain| == if |arra| < 10 then 0 else |arra| - 10
    ensures forall i :: 0 <= i < |rain| ==> rain[i] == (arra[i], arra[i + 10], arra[i + 5])
  {
    rain := [];
    var n := if |arra| < 10 then 0 else |arra| - 10;
    for i := 0 to n
      invariant |rain| == i
      invariant forall k :: 0 <= k < i ==> rain[k] == (arra[k], arra[k + 10], arra[k + 5])
    {
      rain := rain + [(arra[i], arra[i + 10], arra[i + 5])];
    }
  }

  /** The module's tables: 76 intensities and 66 colours, all dim and valid. */
  method LoadTables() returns (arra: seq<int>, rain: seq<Color>)
    ensures |arra| == 76 && |rain| == 66
    ensures forall k :: 0 <= k < |arra| ==> arra[k] == ArraAt(k)
    ensures forall k :: 0 <= k < |arra| - 15 ==> arra[k + 15] == arra[k]
    ensures forall i :: 0 <= i < |rain| ==> rain[i] == (arra[i], arra[i + 10], arra[i + 5])
    ensures forall i :: 0 <= i < |rain| ==> ValidColor(rain[i]) && rain[i].0 <= 10 && rain[i].1 <= 10 && rain[i].2 <= 10
  {
    arra := BuildArra();
    rain := BuildRain(arra);
    forall k | 0 <= k < |arra|
      ensures 0 <= arra[k] <= 10 && (k < |arra| - 15 ==> arra[k + 15] == arra[k])
    {
      ArraShape(k);
    }
    forall i | 0 <= i < |rain|
      ensures ValidColor(rain[i]) && rain[i].0 <= 10 && rain[i].1 <= 10 && rain[i].2 <= 10
    {
      assert 0 <= arra[i] <= 10 && 0 <= arra[i + 10] <= 10 && 0 <= arra[i + 5] <= 10;
    }
  }

  // ---------------------------------------------------------------------
  // Patterns
  // ---------------------------------------------------------------------

  /** Every pixel the same colour. */
  function All(c: Color): (px: seq<Color>)
    ensures |px| == Leds && forall j :: 0 <= j < Leds ==> px[j] == c
  {
    seq(Leds, _ => c)
  }

  /** Pixel `p` lit in `c` on background `bg`. */
  function Single(bg: Color, c: Color, p: int): (px: seq<Color>)
    ensures |px| == Leds
  {
    seq(Leds, j => if j == p then c else bg)
  }

  /** Python's `rain[index]`: negative indices count from the end. */
  function PyIndex(index: int, len: nat): (r: Option<nat>)
    ensures r.Some? ==> r.value < len
  {
    if 0 <= index < len then Some(index)
    else if -(len as int) <= index < 0 then Some(len + index)
    else None
  }

  /** Where pixel `j` of `rainbow(start)` reads `rain`, if anywhere. */
  function RainIndex(start: int, len: nat, j: int): (r: Option<nat>)
    ensures r.Some? ==> r.value < len
  {
    PyIndex(j + start, len)
  }

  /** `rainbow(start)` stays inside `rain` for every pixel. */
  predicate RainbowFits(start: int, len: nat)
    ensures RainbowFits(start, len) ==> forall j :: 0 <= j < Leds ==> RainIndex(start, len, j).Some?
  {
    -(len as int) <= start && start + Leds <= len
  }

  /** The first pixel whose index falls outside `rain`, when `rainbow(start)` does not fit. */
  function FirstMiss(start: int, len: nat): (i: nat)
    requires !RainbowFits(start, len)
    ensures i < Leds && RainIndex(start, len, i).None?
    ensures forall j :: 0 <= j < i ==> RainIndex(start, len, j).Some?
  {
    if start < -(len as int) || start >= len then 0 else len - start
  }

  /** The buffer after `rainbow(start)` has set pixels 0 .. k - 1 over `prev`. */
  function RainbowPrefix(prev: seq<Color>, rain: seq<Color>, start: int, k: nat): (px: seq<Color>)
    requires |prev| == Leds && k <= Leds
    requires forall j :: 0 <= j < k ==> RainIndex(start, |rain|, j).Some?
    ensures |px| == Leds
  {
    seq(Leds, j requires 0 <= j < Leds =>
      if j < k then rain[RainIndex(start, |rain|, j).value] else prev[j])
  }

  /** The frames `rainbow(start)` writes while setting pixels 0 .. k - 1, one per pixel. */
  function RainbowFrames(prev: seq<Color>, rain: seq<Color>, start: int, k: nat): (fs: seq<seq<Color>>)
    requires |prev| == Leds && k <= Leds
    requires forall j :: 0 <= j < k ==> RainIndex(start, |rain|, j).Some?
    ensures |fs| == k
  {
    seq(k, n requires 0 <= n < k => RainbowPrefix(prev, rain, start, n + 1))
  }

  datatype LedError = IndexError

  /** The rainbow that scrolls by wrapping around `rain`: pixel j shows `rain[(j + start) % len(rain)]`. */
  function WrappedFrame(rain: seq<Color>, start: int): (px: seq<Color>)
    requires |rain| > 0
    ensures |px| == Leds
  {
    seq(Leds, j => rain[(j + start) % |rain|])
  }

  /** The first k pixels of `target` over `prev`. */
  function Overlay(prev: seq<Color>, target: seq<Color>, k: nat): (px: seq<Color>)
    requires |prev| == Leds && |target| == Leds && k <= Leds
    ensures |px| == Leds
  {
    seq(Leds, j requires 0 <= j < Leds => if j < k then target[j] else prev[j])
  }

  /** `rainbow(start)` as written, on the 66 colours of `rain`, works exactly for starts from -66 to 45. */
  lemma RainbowBounds(start: int)
    ensures RainbowFits(start, 66) <==> -66 <= start <= 45
    ensures 46 < 10 * Leds && !RainbowFits(46, 66) && FirstMiss(46, 66) == 20
  {
  }

  /** Where the source's rainbow fits, the wrapped one shows the same pixels. */
  lemma WrappedAgrees(rain: seq<Color>, start: int)
    requires RainbowFits(start, |rain|)
    ensures forall j :: 0 <= j < Leds ==> RainIndex(start, |rain|, j) == Some((j + start) % |rain|)
    ensures |rain| > 0 && forall j :: 0 <= j < Leds ==> WrappedFrame(rain, start)[j] == rain[RainIndex(start, |rain|, j).value]
  {
    forall j | 0 <= j < Leds
      ensures RainIndex(start, |rain|, j) == Some((j + start) % |rain|)
      ensures WrappedFrame(rain, start)[j] == rain[RainIndex(start, |rain|, j).value]
    {
      var i := j + start;
      if i >= 0 {
        ModUnique(i, |rain|, 0, i);
      } else {
        ModUnique(i, |rain|, -1, i + |rain|);
      }
    }
  }

  /** The wrapped rainbow repeats after `len(rain)` steps. */
  lemma WrappedPeriodic(rain: seq<Color>, start: int)
    requires |rain| > 0
    ensures WrappedFrame(rain, start + |rain|) == WrappedFrame(rain, start)
  {
    forall j | 0 <= j < Leds
      ensures WrappedFrame(rain, start + |rain|)[j] == WrappedFrame(rain, start)[j]
    {
      ModShift(j + start, |rain|);
      assert j + (start + |rain|) == (j + start) + |rain|;
    }
  }

  lemma ModShift(x: int, m: int)
    requires m > 0
    ensures (x + m) % m == x % m
  {
    var q, r := x / m, x % m;
    assert x == q * m + r;
    assert x + m == (q + 1) * m + r;
    ModUnique(x + m, m, q + 1, r);
  }

  /** The remainder is the only r in [0, m) with x = q * m + r. */
  lemma ModUnique(x: int, m: int, q: int, r: int)
    requires m > 0 && 0 <= r < m && x == q * m + r
    ensures x % m == r
  {
    var q2, r2 := x / m, x % m;
    assert x == q2 * m + r2;
    assert (q - q2) * m == r2 - r;
    if q > q2 {
      MulAtLeast(q - q2, m);
    } else if q < q2 {
      MulAtLeast(q2 - q, m);
    }
  }

  lemma {:induction false} MulAtLeast(d: int, m: int)
    requires d >= 1 && m > 0
    ensures d * m >= m
    decreases d
  {
    if d > 1 {
      MulAtLeast(d - 1, m);
      assert d * m == (d - 1) * m + m;
    }
  }

  /** The strip `np` on GPIO 19, and the tables the patterns use. */
  class Strip {
    const pixels: array<Color>
    /** The buffer as sent by each `np.write()`, oldest first. */
    var frames: seq<seq<Color>>
    const rain: seq<Color>

    predicate Valid()
      reads this
    {
      pixels.Length == Leds
    }

    constructor (rain: seq<Color>)
      ensures Valid() && this.rain == rain && frames == [] && fresh(pixels)
      ensures pixels[..] == All(Black)
    {
      this.rain := rain;
      pixels := new Color[Leds](_ => (0, 0, 0));
      frames := [];
    }

    /** `np.write()` */
    method Write()
      modifies this`frames
      ensures frames == old(frames) + [pixels[..]]
    {
      frames := frames + [pixels[..]];
    }

    /** `np.fill(c)` */
    method Fill(c: Color)
      requires Valid()
      modifies pixels
      ensures pixels[..] == All(c)
    {
      for j := 0 to pixels.Length
        invariant forall k :: 0 <= k < j ==> pixels[k] == c
      {
        pixels[j] := c;
      }
    }

    /** `blink(speed, color1, color2)`: two frames of `c1`, then two of `c2`. */
    method Blink(c1: Color, c2: Color)
      requires Valid()
      modifies pixels, this`frames
      ensures pixels[..] == All(c2)
      ensures frames == old(frames) + [All(c1), All(c1), All(c2), All(c2)]
    {
      Fill(c1);
      Write();
      Write();
      Fill(c2);
      Write();
      Write();
    }

    /** `Off()`: every pixel dark. */
    method Off()
      requires Valid()
      modifies pixels, this`frames
      ensures pixels[..] == All(Black)
      ensures frames == old(frames) + [All(Black)]
    {
      Fill((0, 0, 0));
      Write();
    }

    /** `run(speed, background, color)`: a dot in `c` travels from pixel 0 to pixel 20. */
    method Run(bg: Color, c: Color)
      requires Valid()
      modifies pixels, this`frames
      ensures pixels[..] == Single(bg, c, Leds - 1)
      ensures frames == old(frames) + seq(2 * Leds, n => Single(bg, c, n / 2))
    {
      for i := 0 to Leds
        invariant i > 0 ==> pixels[..] == Single(bg, c, i - 1)
        invariant frames == old(frames) + seq(2 * i, n => Single(bg, c, n / 2))
      {
        Fill(bg);
        pixels[i] := c;
        assert pixels[..] == Single(bg, c, i);
        Write();
        Write();
      }
    }

    /** `trapped(speed, background, color)`: the dot runs up to pixel 20 and back down to pixel 0. */
    method Trapped(bg: Color, c: Color)
      requires Valid()
      modifies pixels, this`frames
      ensures pixels[..] == Single(bg, c, 0)
      ensures frames == old(frames) + seq(2 * Leds, n => Single(bg, c, n / 2))
                                    + seq(2 * Leds, n => Single(bg, c, Leds - 1 - n / 2))
    {
      Run(bg, c);
      ghost var afterRun := frames;
      for i := 1 to Leds + 1
        invariant pixels[..] == Single(bg, c, Leds - i + 1) || i == 1
        invariant i == 1 ==> pixels[..] == Single(bg, c, Leds - 1)
        invariant frames == afterRun + seq(2 * (i - 1), n => Single(bg, c, Leds - 1 - n / 2))
      {
        Fill(bg);
        pixels[Leds - i] := c;
        assert pixels[..] == Single(bg, c, Leds - i);
        Write();
        Write();
      }
    }

    /**
     * `rainbow(start)`: pixel i takes `rain[i + start]`, with a write after
     * each pixel. An index outside `rain` raises IndexError at the first
     * pixel where it happens, after the earlier pixels were set and written.
     */
    method Rainbow(start: int) returns (result: Result<(), LedError>)
      requires Valid()
      modifies pixels, this`frames
      ensures RainbowFits(start, |rain|) <==> result.Success?
      ensures var k := if RainbowFits(start, |rain|) then Leds else FirstMiss(start, |rain|);
              pixels[..] == RainbowPrefix(old(pixels[..]), rain, start, k) &&
              frames == old(frames) + RainbowFrames(old(pixels[..]), rain, start, k)
    {
      ghost var prev := pixels[..];
      ghost var fits := RainbowFits(start, |rain|);
      for i := 0 to Leds
        invariant forall j :: 0 <= j < i ==> RainIndex(start, |rain|, j).Some?
        invariant !fits ==> i <= FirstMiss(start, |rain|)
        invariant pixels[..] == RainbowPrefix(prev, rain, start, i)
        invariant frames == old(frames) + RainbowFrames(prev, rain, start, i)
      {
        var index := RainIndex(start, |rain|, i);
        if index.None? {
          return Failure(IndexError);
        }
        pixels[i] := rain[index.value];
        assert pixels[..] == RainbowPrefix(prev, rain, start, i + 1);
        Write();
        assert RainbowFrames(prev, rain, start, i + 1) ==
               RainbowFrames(prev, rain, start, i) + [RainbowPrefix(prev, rain, start, i + 1)];
      }
      return Success(());
    }

    /**
     * `rainbow_run(speed)` as written: it asks for starts 0 to 209, but
     * with the 66 colours of `rain` start 46 already runs off the end, so it
     * raises IndexError after 46 full rainbows and 20 pixels of the 47th.
     */
    method RainbowRun() returns (result: Result<(), LedError>)
      requires Valid() && |rain| == 66
      modifies pixels, this`frames
      ensures result == Failure(IndexError)
      ensures forall j :: 0 <= j < Leds - 1 ==> pixels[j] == rain[j + 46]
      ensures pixels[Leds - 1] == rain[65]
    {
      var i := 0;
      while i < 10 * Leds
        invariant 0 <= i <= 46 && pixels.Length == Leds
        invariant i > 0 ==> forall j :: 0 <= j < Leds ==> pixels[j] == rain[j + i - 1]
      {
        ghost var prev := pixels[..];
        result := Rainbow(i);
        if result.Failure? {
          assert i == 46;
          return Failure(IndexError);
        }
        Write();
        i := i + 1;
      }
      assert false;
    }

    /** `rainbow(start)` with the index wrapped around `rain`: it never fails. */
    method RainbowWrapped(start: int)
      requires Valid() && |rain| > 0
      modifies pixels, this`frames
      ensures pixels[..] == WrappedFrame(rain, start)
      ensures frames == old(frames) + seq(Leds, n requires 0 <= n < Leds => Overlay(old(pixels[..]), WrappedFrame(rain, start), n + 1))
    {
      ghost var prev := pixels[..];
      ghost var target := WrappedFrame(rain, start);
      for i := 0 to Leds
        invariant pixels[..] == Overlay(prev, target, i)
        invariant frames == old(frames) + seq(i, n requires 0 <= n < i => Overlay(prev, target, n + 1))
      {
        pixels[i] := rain[(i + start) % |rain|];
        assert pixels[..] == Overlay(prev, target, i + 1);
        Write();
      }
      assert Overlay(prev, target, Leds) == target;
    }

    /** `rainbow_run(speed)` with the wrapped rainbow: all 210 steps run, ending on start 209. */
    method RainbowRunWrapped()
      requires Valid() && |rain| > 0
      modifies pixels, this`frames
      ensures pixels[..] == WrappedFrame(rain, 10 * Leds - 1)
      ensures |frames| == |old(frames)| + 10 * Leds * (Leds + 1)
    {
      for i := 0 to 10 * Leds
        invariant i > 0 ==> pixels[..] == WrappedFrame(rain, i - 1)
        invariant |frames| == |old(frames)| + i * (Leds + 1)
      {
        RainbowWrapped(i);
        Write();
      }
    }
  }
}
