/** The layer axis of view/CustomAxis.py. Tick positions are integer
    half-units: `h` stands for the plot coordinate h / 2. */
module CustomAxis {
  import opened FrameMath

  /** `np.arange(lo, hi + 1)`: the integers lo, lo + 1, ..., hi. */
  function IntRange(lo: int, hi: int): (r: seq<int>)
    ensures |r| == if hi < lo then 0 else hi - lo + 1
    ensures forall i :: 0 <= i < |r| ==> r[i] == lo + i
    decreases hi - lo
  {
    if hi < lo then [] else [lo] + IntRange(lo + 1, hi)
  }

  /** One entry of `tickValues`' result: a spacing (in half-units) and the
      ticks at that spacing (in half-units). */
  datatype TickLevel = TickLevel(spacingHalves: int, ticks: seq<int>)

  function Doubled(s: seq<int>): (r: seq<int>)
    ensures |r| == |s| && forall i :: 0 <= i < |s| ==> r[i] == 2 * s[i]
  {
    seq(|s|, i requires 0 <= i < |s| => 2 * s[i])
  }

  function Low(a: real, b: real): real { if a <= b then a else b }
  function High(a: real, b: real): real { if a <= b then b else a }

  /** `tickValues(minVal, maxVal, size)`: the bounds are sorted; major ticks
      every 1.0 from floor(min) to ceil(max), minor ticks every 0.5 from
      floor(2 min) / 2 to ceil(2 max) / 2. */
  function TickValues(minVal: real, maxVal: real): (r: seq<TickLevel>)
    ensures |r| == 2 && r[0].spacingHalves == 2 && r[1].spacingHalves == 1
  {
    var lo, hi := Low(minVal, maxVal), High(minVal, maxVal);
    [TickLevel(2, Doubled(IntRange(Floor(lo), Ceil(hi)))), TickLevel(1, IntRange(Floor(2.0 * lo), Ceil(2.0 * hi)))]
  }

  /** The major ticks are the whole numbers from floor(min) to ceil(max)
      and the minor ticks the halves from floor(2 min) / 2 to
      ceil(2 max) / 2, whichever bound is given first. */
  lemma TickValuesMembers(minVal: real, maxVal: real, h: int)
    ensures h in TickValues(minVal, maxVal)[0].ticks <==>
              h % 2 == 0 && 2 * Floor(Low(minVal, maxVal)) <= h <= 2 * Ceil(High(minVal, maxVal))
    ensures h in TickValues(minVal, maxVal)[1].ticks <==>
              Floor(2.0 * Low(minVal, maxVal)) <= h <= Ceil(2.0 * High(minVal, maxVal))
  {
    var lo, hi := Low(minVal, maxVal), High(minVal, maxVal);
    var major := TickValues(minVal, maxVal)[0].ticks;
    var minor := TickValues(minVal, maxVal)[1].ticks;
    if h % 2 == 0 && 2 * Floor(lo) <= h <= 2 * Ceil(hi) {
      assert major[h / 2 - Floor(lo)] == h;
    }
    if Floor(2.0 * lo) <= h <= Ceil(2.0 * hi) {
      assert minor[h - Floor(2.0 * lo)] == h;
    }
  }

  /** Swapping the bounds gives the same ticks. */
  lemma TickValuesSymmetric(a: real, b: real)
    ensures TickValues(a, b) == TickValues(b, a)
  {
  }

  /** Both levels reach across the whole visible range: every whole number
      and every half between the bounds is ticked. */
  lemma TicksCoverRange(minVal: real, maxVal: real, h: int)
    requires Low(minVal, maxVal) <= h as real / 2.0 <= High(minVal, maxVal)
    ensures h in TickValues(minVal, maxVal)[1].ticks
    ensures h % 2 == 0 ==> h in TickValues(minVal, maxVal)[0].ticks
  {
    TickValuesMembers(minVal, maxVal, h);
  }

  /** `int(h / 2)`: truncation toward zero. */
  function TruncHalf(h: int): (r: int)
    ensures r == Trunc(h as real / 2.0)
  {
    if h >= 0 then h / 2 else -((-h) / 2)
  }

  /** The string `tickStrings` gives one tick: the layer name when
      `0 <= int(v) < len(layers)` and `v % 1 == 0.5`, else "". Python's
      float `%` is never negative, so `v % 1 == 0.5` holds exactly for odd h. */
  function TickLabel(h: int, layers: seq<string>): string
  {
    var index := TruncHalf(h);
    if 0 <= index < |layers| && h % 2 == 1 then layers[index] else ""
  }

  /** `tickStrings`: one string per tick value, in order. */
  function TickStrings(values: seq<int>, layers: seq<string>): (r: seq<string>)
    ensures |r| == |values|
    ensures forall i :: 0 <= i < |values| ==> r[i] == TickLabel(values[i], layers)
  {
    if |values| == 0 then [] else [TickLabel(values[0], layers)] + TickStrings(values[1..], layers)
  }

  /** Which ticks carry a name: layer i's is the tick at i + 0.5, and, from
      truncation toward zero, the tick at -0.5 carries layer 0's name too.
      Every other tick, and every whole-number tick, is blank. */
  lemma LabelledTicks(h: int, layers: seq<string>)
    ensures h % 2 == 0 ==> TickLabel(h, layers) == ""
    ensures forall i :: 0 <= i < |layers| ==> TickLabel(2 * i + 1, layers) == layers[i]
    ensures |layers| > 0 ==> TickLabel(-1, layers) == layers[0]
    ensures h < -1 || h >= 2 * |layers| ==> TickLabel(h, layers) == ""
  {
    forall i | 0 <= i < |layers|
      ensures TickLabel(2 * i + 1, layers) == layers[i]
    {
      assert TruncHalf(2 * i + 1) == i;
    }
  }
}
