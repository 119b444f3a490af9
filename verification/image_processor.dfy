/**
 * The image statistics of `ImageProcessor`, computed from what the decoders
 * hand over: the single-channel intensity grid ("L" mode), the Sobel
 * gradient-magnitude grid, and the k-means cluster centres. `None` stands
 * for an input the decoder could not read, which every operation absorbs
 * into a fixed default.
 */
module ImageProcessor {
  import opened Wrappers
  import opened LittleEndian

  /** An intensity image, row by row. */
  type Grid = seq<seq<byte>>

  /** Every row has the first row's length: the shape of a numpy array. */
  predicate IsRect<T>(m: seq<seq<T>>) {
    forall i :: 0 <= i < |m| ==> |m[i]| == |m[0]|
  }

  /** A decoded image: a rectangle of at least one pixel. */
  predicate IsImage(g: Grid) {
    |g| > 0 && |g[0]| > 0 && IsRect(g)
  }

  // ---------------------------------------------------------------------------
  // Sums over regions

  function Sum(s: seq<byte>): nat {
    if |s| == 0 then 0 else s[0] + Sum(s[1..])
  }

  lemma {:induction false} SumAppend(a: seq<byte>, b: seq<byte>)
    ensures Sum(a + b) == Sum(a) + Sum(b)
  {
    if |a| > 0 {
      assert (a + b)[1..] == a[1..] + b;
      SumAppend(a[1..], b);
    } else {
      assert a + b == b;
    }
  }

  /** Every row is at least `hi` pixels wide. */
  predicate WideEnough(g: Grid, hi: nat) {
    forall i :: 0 <= i < |g| ==> hi <= |g[i]|
  }

  /** The sum of columns `[lo, hi)` over all rows: `g[:, lo:hi].sum()`. */
  function ColumnSum(g: Grid, lo: nat, hi: nat): nat
    requires lo <= hi && WideEnough(g, hi)
  {
    if |g| == 0 then 0 else Sum(g[0][lo..hi]) + ColumnSum(g[1..], lo, hi)
  }

  /** The sum of every pixel of the rows of `g`: `g.sum()`. */
  function GridSum(g: Grid): nat {
    if |g| == 0 then 0 else Sum(g[0]) + GridSum(g[1..])
  }

  lemma {:induction false} GridSumAppend(a: Grid, b: Grid)
    ensures GridSum(a + b) == GridSum(a) + GridSum(b)
  {
    if |a| > 0 {
      assert (a + b)[1..] == a[1..] + b;
      GridSumAppend(a[1..], b);
    } else {
      assert a + b == b;
    }
  }

  /** Splitting the columns at `mid` splits the image sum. */
  lemma {:induction false} ColumnSplit(g: Grid, mid: nat)
    requires |g| > 0 && IsRect(g) && mid <= |g[0]|
    ensures ColumnSum(g, 0, mid) + ColumnSum(g, mid, |g[0]|) == GridSum(g)
    decreases |g|
  {
    assert g[0] == g[0][0..mid] + g[0][mid..|g[0]|];
    SumAppend(g[0][0..mid], g[0][mid..|g[0]|]);
    if |g| > 1 {
      ColumnSplit(g[1..], mid);
    }
  }

  /** The four half-image sums `calculate_balance_score` compares. */
  datatype Halves = Halves(left: nat, right: nat, top: nat, bottom: nat)

  /**
   * Left is columns `[0, w/2)`, right the rest; top is rows `[0, h/2)`,
   * bottom the rest (floor division, so an odd middle column or row goes
   * to the right or bottom half). Both splits cover the whole image.
   */
  function HalfSums(g: Grid): (s: Halves)
    requires IsImage(g)
    ensures s.left + s.right == GridSum(g) == s.top + s.bottom
  {
    var w, h := |g[0]|, |g|;
    ColumnSplit(g, w / 2);
    assert g == g[..h / 2] + g[h / 2..];
    GridSumAppend(g[..h / 2], g[h / 2..]);
    Halves(ColumnSum(g, 0, w / 2), ColumnSum(g, w / 2, w), GridSum(g[..h / 2]), GridSum(g[h / 2..]))
  }

  // ---------------------------------------------------------------------------
  // Balance score

  function Max(a: int, b: int): int {
    if a >= b then a else b
  }

  /** `1 - |a - b| / max(a + b, 1)` with exact integers. */
  function AxisBalance(a: nat, b: nat): (r: real)
    ensures 0.0 <= r <= 1.0
    ensures r == 1.0 <==> a == b
  {
    var d := if a >= b then a - b else b - a;
    var m := Max(a + b, 1);
    assert d <= m;
    var q := d as real / m as real;
    assert q * m as real == d as real;
    assert d == 0 <==> q == 0.0;
    1.0 - q
  }

  /** The score from the four half sums, capped at 100 as the source's `min` does. */
  function ScoreOf(s: Halves): real {
    var score := (AxisBalance(s.left, s.right) + AxisBalance(s.top, s.bottom)) / 2.0 * 100.0;
    if score <= 100.0 then score else 100.0
  }

  /**
   * `calculate_balance_score` with the half sums as exact integers, as the
   * docstring's 0-100 range intends: 50 for an undecodable image, otherwise
   * a score in [0, 100] that is exactly 100 when both axes are balanced.
   */
  function CalculateBalanceScore(img: Option<Grid>): (r: real)
    requires img.Some? ==> IsImage(img.value)
    ensures 0.0 <= r <= 100.0
    ensures img.None? ==> r == 50.0
    ensures img.Some? ==>
      (r == 100.0 <==> HalfSums(img.value).left == HalfSums(img.value).right
                       && HalfSums(img.value).top == HalfSums(img.value).bottom)
  {
    match img
    case None => 50.0
    case Some(g) => ScoreOf(HalfSums(g))
  }

  /** An all-black image has zero ink on every side. */
  predicate AllBlack(g: Grid) {
    forall i, j :: 0 <= i < |g| && 0 <= j < |g[i]| ==> g[i][j] == 0
  }

  lemma {:induction false} BlackSum(s: seq<byte>)
    requires forall j :: 0 <= j < |s| ==> s[j] == 0
    ensures Sum(s) == 0
  {
    if |s| > 0 {
      BlackSum(s[1..]);
    }
  }

  lemma {:induction false} BlackGridSum(g: Grid)
    requires AllBlack(g)
    ensures GridSum(g) == 0
  {
    if |g| > 0 {
      BlackSum(g[0]);
      BlackGridSum(g[1..]);
    }
  }

  /** An all-black image scores exactly 100: the denominators are floored at 1. */
  lemma AllBlackScoresFull(g: Grid)
    requires IsImage(g) && AllBlack(g)
    ensures CalculateBalanceScore(Some(g)) == 100.0
  {
    BlackGridSum(g);
  }

  /** numpy's default accumulator for summing `uint8` arrays wraps at 2^64. */
  const U64_MODULUS: int := 0x1_0000_0000_0000_0000

  /** An arithmetic result stored in a `numpy.uint64`. */
  function U64(x: int): nat {
    x % U64_MODULUS
  }

  /** One axis term as the source computes it on `uint64` sums: `abs` of an unsigned difference is the wrapped difference. */
  function AxisBalanceAsWritten(a: nat, b: nat): real {
    1.0 - U64(a - b) as real / Max(U64(a + b), 1) as real
  }

  /** The capped score from the four half sums, with the `uint64` axis terms. */
  function ScoreAsWritten(s: Halves): real {
    var score := (AxisBalanceAsWritten(s.left, s.right) + AxisBalanceAsWritten(s.top, s.bottom)) / 2.0 * 100.0;
    if score <= 100.0 then score else 100.0
  }

  /** Without wrap-around the `uint64` axis term is the exact one. */
  lemma AxisAgrees(a: nat, b: nat)
    requires b <= a && a + b < U64_MODULUS
    ensures AxisBalanceAsWritten(a, b) == AxisBalance(a, b)
  {
    assert U64(a - b) == a - b;
    assert U64(a + b) == a + b;
  }

  /**
   * `calculate_balance_score` as written: the half sums are `numpy.uint64`,
   * so `left - right` wraps when the right (or bottom) half holds more.
   * The final `min` still keeps the score at most 100, and where no
   * subtraction wraps it agrees with the exact score.
   */
  function CalculateBalanceScoreAsWritten(img: Option<Grid>): (r: real)
    requires img.Some? ==> IsImage(img.value)
    ensures r <= 100.0
    ensures img.None? ==> r == 50.0
    ensures img.Some? ==>
      var s := HalfSums(img.value);
      s.left >= s.right && s.top >= s.bottom && GridSum(img.value) < U64_MODULUS ==>
        r == CalculateBalanceScore(img)
  {
    match img
    case None => 50.0
    case Some(g) =>
      NoWrapAgrees(g);
      ScoreAsWritten(HalfSums(g))
  }

  /** Where neither subtraction wraps and the total fits, the as-written score is the exact one. */
  lemma NoWrapAgrees(g: Grid)
    requires IsImage(g)
    ensures var s := HalfSums(g);
      s.left >= s.right && s.top >= s.bottom && GridSum(g) < U64_MODULUS ==>
        ScoreAsWritten(s) == CalculateBalanceScore(Some(g))
  {
    var s := HalfSums(g);
    if s.left >= s.right && s.top >= s.bottom && GridSum(g) < U64_MODULUS {
      AxisAgrees(s.left, s.right);
      AxisAgrees(s.top, s.bottom);
    }
  }

  /**
   * A 1x2 image whose only lit pixel is on the right: both subtractions
   * wrap, and the as-written score is far below 0.
   */
  lemma BalanceAsWrittenGoesNegative()
    ensures IsImage([[0, 10]])
    ensures CalculateBalanceScoreAsWritten(Some([[0, 10]])) < 0.0
    ensures CalculateBalanceScore(Some([[0, 10]])) == 0.0
  {
    var g: Grid := [[0, 10]];
    assert g[0][0..1] == [0] && g[0][1..2] == [10];
    assert g[..0] == [] && g[0..] == g;
    var s := HalfSums(g);
    assert s == Halves(0, 10, 0, 10);
    assert U64(0 - 10) == U64_MODULUS - 10;
  }

  // ---------------------------------------------------------------------------
  // Scene type

  datatype SceneType = Uniform | Bright | Dark | Normal | Unknown {
    /** The label `detect_scene_type` returns. */
    function Label(): string {
      match this
      case Uniform => "uniform"
      case Bright => "bright"
      case Dark => "dark"
      case Normal => "normal"
      case Unknown => "unknown"
    }
  }

  /** The pixels in row-major order. */
  function Flatten(g: Grid): (xs: seq<byte>)
    ensures |g| > 0 ==> |xs| >= |g[0]|
  {
    if |g| == 0 then [] else g[0] + Flatten(g[1..])
  }

  function Mean(xs: seq<byte>): real
    requires |xs| > 0
  {
    Sum(xs) as real / |xs| as real
  }

  /** The sum of squared deviations from `m`. */
  function SquaredDeviation(xs: seq<byte>, m: real): (r: real)
    ensures r >= 0.0
  {
    if |xs| == 0 then 0.0
    else
      var d := xs[0] as real - m;
      assert d * d >= 0.0 by {
        if d < 0.0 {
          assert d * d == (-d) * (-d);
        }
      }
      d * d + SquaredDeviation(xs[1..], m)
  }

  /** The population variance numpy's `std` takes the root of. */
  function Variance(xs: seq<byte>): real
    requires |xs| > 0
  {
    SquaredDeviation(xs, Mean(xs)) / |xs| as real
  }

  /**
   * `detect_scene_type`: "unknown" exactly for an undecodable image; a
   * standard deviation below 20 (variance below 400) is "uniform" whatever
   * the brightness; otherwise a mean above 200 is "bright", below 50 "dark",
   * and everything else, 50 and 200 included, "normal".
   */
  function DetectSceneType(img: Option<Grid>): (r: SceneType)
    requires img.Some? ==> IsImage(img.value)
    ensures r == Unknown <==> img.None?
    ensures img.Some? ==>
      var xs := Flatten(img.value);
      && (r == Uniform <==> Variance(xs) < 400.0)
      && (r == Bright <==> Variance(xs) >= 400.0 && Mean(xs) > 200.0)
      && (r == Dark <==> Variance(xs) >= 400.0 && Mean(xs) < 50.0)
      && (r == Normal <==> Variance(xs) >= 400.0 && 50.0 <= Mean(xs) <= 200.0)
  {
    match img
    case None => Unknown
    case Some(g) =>
      var xs := Flatten(g);
      if Variance(xs) < 400.0 then Uniform
      else if Mean(xs) > 200.0 then Bright
      else if Mean(xs) < 50.0 then Dark
      else Normal
  }

  /** Every pixel of `g` has intensity `c`. */
  predicate Constant(g: Grid, c: byte) {
    forall i, j :: 0 <= i < |g| && 0 <= j < |g[i]| ==> g[i][j] == c
  }

  lemma {:induction false} FlattenConstant(g: Grid, c: byte)
    requires Constant(g, c)
    ensures forall k :: 0 <= k < |Flatten(g)| ==> Flatten(g)[k] == c
  {
    if |g| > 0 {
      FlattenConstant(g[1..], c);
      var f := Flatten(g);
      assert f == g[0] + Flatten(g[1..]);
      forall k | 0 <= k < |f|
        ensures f[k] == c
      {
        if k >= |g[0]| {
          assert f[k] == Flatten(g[1..])[k - |g[0]|];
        }
      }
    }
  }

  lemma {:induction false} ConstantSum(xs: seq<byte>, c: byte)
    requires forall k :: 0 <= k < |xs| ==> xs[k] == c
    ensures Sum(xs) as real == |xs| as real * c as real
  {
    if |xs| > 0 {
      ConstantSum(xs[1..], c);
    }
  }

  lemma {:induction false} ConstantDeviation(xs: seq<byte>, c: byte)
    requires forall k :: 0 <= k < |xs| ==> xs[k] == c
    ensures SquaredDeviation(xs, c as real) == 0.0
  {
    if |xs| > 0 {
      ConstantDeviation(xs[1..], c);
    }
  }

  /**
   * A single-intensity image is "uniform", even when it is white: the
   * variance test comes before the brightness tests.
   */
  lemma ConstantImageIsUniform(g: Grid, c: byte)
    requires IsImage(g) && Constant(g, c)
    ensures DetectSceneType(Some(g)) == Uniform
  {
    var xs := Flatten(g);
    FlattenConstant(g, c);
    ConstantSum(xs, c);
    assert |xs| > 0;
    CancelFactor(|xs| as real, c as real);
    assert Mean(xs) == c as real;
    ConstantDeviation(xs, c);
  }

  lemma CancelFactor(n: real, x: real)
    requires n > 0.0
    ensures (n * x) / n == x
  {
  }

  // ---------------------------------------------------------------------------
  // Focus point

  /** Position (i, j) comes before (r, c) in row-major order. */
  predicate Before(i: int, j: int, r: int, c: int) {
    i < r || (i == r && j < c)
  }

  /**
   * (r, c) holds the largest magnitude, and every earlier position in
   * row-major order holds strictly less: `np.argmax`'s first occurrence.
   */
  predicate IsFirstMax(m: seq<seq<real>>, r: int, c: int)
    requires IsRect(m)
  {
    && 0 <= r < |m| && 0 <= c < |m[0]|
    && (forall i, j :: 0 <= i < |m| && 0 <= j < |m[0]| ==> m[i][j] <= m[r][c])
    && (forall i, j :: 0 <= i < |m| && 0 <= j < |m[0]| && Before(i, j, r, c) ==> m[i][j] < m[r][c])
  }

  /** At most one position is the first maximum. */
  lemma FirstMaxUnique(m: seq<seq<real>>, r1: int, c1: int, r2: int, c2: int)
    requires IsRect(m) && IsFirstMax(m, r1, c1) && IsFirstMax(m, r2, c2)
    ensures r1 == r2 && c1 == c2
  {
    assert m[r1][c1] <= m[r2][c2] && m[r2][c2] <= m[r1][c1];
  }

  /** The row and column `np.unravel_index(np.argmax(m), m.shape)` picks. */
  method ArgMax(m: seq<seq<real>>) returns (r: nat, c: nat)
    requires IsRect(m) && |m| > 0 && |m[0]| > 0
    ensures IsFirstMax(m, r, c)
  {
    var w := |m[0]|;
    r, c := 0, 0;
    var i := 0;
    while i < |m|
      invariant 0 <= i <= |m|
      invariant r < |m| && c < w
      invariant r < i || (r == 0 && c == 0)
      invariant forall a, b :: 0 <= a < i && 0 <= b < w ==> m[a][b] <= m[r][c]
      invariant forall a, b :: 0 <= a < i && 0 <= b < w && Before(a, b, r, c) ==> m[a][b] < m[r][c]
    {
      var j := 0;
      while j < w
        invariant 0 <= j <= w
        invariant r < |m| && c < w
        invariant Before(r, c, i, j) || (r == 0 && c == 0)
        invariant forall a, b :: 0 <= a < |m| && 0 <= b < w && Before(a, b, i, j) ==> m[a][b] <= m[r][c]
        invariant forall a, b :: 0 <= a < |m| && 0 <= b < w && Before(a, b, i, j) && Before(a, b, r, c) ==> m[a][b] < m[r][c]
      {
        if m[i][j] > m[r][c] {
          r, c := i, j;
        }
        j := j + 1;
      }
      i := i + 1;
    }
  }

  /**
   * `detect_focus_point` over the gradient-magnitude grid: the centre
   * (0.5, 0.5) when there is nothing to scan (undecodable or empty image),
   * otherwise (column / width, row / height) of the first maximum, both in [0, 1).
   */
  method DetectFocusPoint(mag: Option<seq<seq<real>>>) returns (x: real, y: real)
    requires mag.Some? ==> IsRect(mag.value)
    ensures mag.None? || |mag.value| == 0 || |mag.value[0]| == 0 ==> x == 0.5 && y == 0.5
    ensures mag.Some? && |mag.value| > 0 && |mag.value[0]| > 0 ==>
      && (exists r, c :: IsFirstMax(mag.value, r, c)
            && x == c as real / |mag.value[0]| as real && y == r as real / |mag.value| as real)
      && 0.0 <= x < 1.0 && 0.0 <= y < 1.0
  {
    if mag.None? || |mag.value| == 0 || |mag.value[0]| == 0 {
      return 0.5, 0.5;
    }
    var m := mag.value;
    var r, c := ArgMax(m);
    x := c as real / |m[0]| as real;
    y := r as real / |m| as real;
  }

  // ---------------------------------------------------------------------------
  // Palette

  datatype Rgb = Rgb(r: byte, g: byte, b: byte)

  /** The colours `generate_palette` names, in the dict's insertion order. */
  const NAMED_COLORS: seq<(Rgb, string)> := [
    (Rgb(255, 0, 0), "红色"),
    (Rgb(0, 255, 0), "绿色"),
    (Rgb(0, 0, 255), "蓝色"),
    (Rgb(255, 255, 0), "黄色"),
    (Rgb(255, 0, 255), "紫色"),
    (Rgb(0, 255, 255), "青色"),
    (Rgb(255, 165, 0), "橙色"),
    (Rgb(128, 0, 0), "深红"),
    (Rgb(0, 128, 0), "深绿"),
    (Rgb(0, 0, 128), "深蓝")
  ]

  /** The colour `extract_dominant_colors` falls back to. */
  const FALLBACK_GRAY := Rgb(128, 128, 128)

  /** Squared Euclidean distance; `sqrt` is monotone, so it ranks table entries as the source's distance does. */
  function Distance2(a: Rgb, b: Rgb): nat {
    (a.r - b.r) * (a.r - b.r) + (a.g - b.g) * (a.g - b.g) + (a.b - b.b) * (a.b - b.b)
  }

  /** The first table entry from `i` on at the least distance, starting from the best so far. */
  function NearestFrom(c: Rgb, i: nat, best: nat): (k: nat)
    requires best < i <= |NAMED_COLORS|
    requires forall j :: 0 <= j < best ==> Distance2(c, NAMED_COLORS[j].0) > Distance2(c, NAMED_COLORS[best].0)
    requires forall j :: best < j < i ==> Distance2(c, NAMED_COLORS[j].0) >= Distance2(c, NAMED_COLORS[best].0)
    ensures k < |NAMED_COLORS|
    ensures forall j :: 0 <= j < |NAMED_COLORS| ==> Distance2(c, NAMED_COLORS[k].0) <= Distance2(c, NAMED_COLORS[j].0)
    ensures forall j :: 0 <= j < k ==> Distance2(c, NAMED_COLORS[j].0) > Distance2(c, NAMED_COLORS[k].0)
    decreases |NAMED_COLORS| - i
  {
    if i == |NAMED_COLORS| then best
    else if Distance2(c, NAMED_COLORS[i].0) < Distance2(c, NAMED_COLORS[best].0) then NearestFrom(c, i + 1, i)
    else NearestFrom(c, i + 1, best)
  }

  /** `min(color_names, key=distance)`: the nearest entry, ties going to the earlier one. */
  function Nearest(c: Rgb): (k: nat)
    ensures k < |NAMED_COLORS|
    ensures forall j :: 0 <= j < |NAMED_COLORS| ==> Distance2(c, NAMED_COLORS[k].0) <= Distance2(c, NAMED_COLORS[j].0)
    ensures forall j :: 0 <= j < k ==> Distance2(c, NAMED_COLORS[j].0) > Distance2(c, NAMED_COLORS[k].0)
  {
    NearestFrom(c, 1, 0)
  }

  const HEX_DIGITS := "0123456789abcdef"

  /** Two lowercase hex digits: `"{:02x}"` of a byte. */
  function HexByte(v: byte): string {
    [HEX_DIGITS[v / 16], HEX_DIGITS[v % 16]]
  }

  /** `"#{:02x}{:02x}{:02x}".format(*color)`. */
  function Hex(c: Rgb): (s: string)
    ensures |s| == 7 && s[0] == '#'
    ensures forall k :: 1 <= k < 7 ==> s[k] in HEX_DIGITS
  {
    "#" + HexByte(c.r) + HexByte(c.g) + HexByte(c.b)
  }

  function DigitValue(ch: char): Option<nat> {
    if '0' <= ch <= '9' then Some(ch as int - '0' as int)
    else if 'a' <= ch <= 'f' then Some(ch as int - 'a' as int + 10)
    else None
  }

  function ParseByte(hi: char, lo: char): Option<byte> {
    match (DigitValue(hi), DigitValue(lo))
    case (Some(h), Some(l)) => if h < 16 && l < 16 then Some(h * 16 + l) else None
    case _ => None
  }

  /** Reads a `#rrggbb` string back into a colour. */
  function ParseHex(s: string): Option<Rgb> {
    if |s| != 7 || s[0] != '#' then None
    else match (ParseByte(s[1], s[2]), ParseByte(s[3], s[4]), ParseByte(s[5], s[6]))
      case (Some(r), Some(g), Some(b)) => Some(Rgb(r, g, b))
      case _ => None
  }

  lemma HexByteRoundTrip(v: byte)
    ensures ParseByte(HexByte(v)[0], HexByte(v)[1]) == Some(v)
  {
    assert DigitValue(HEX_DIGITS[v / 16]) == Some(v / 16);
    assert DigitValue(HEX_DIGITS[v % 16]) == Some(v % 16);
  }

  /** The hex string of a colour determines the colour. */
  lemma HexRoundTrip(c: Rgb)
    ensures ParseHex(Hex(c)) == Some(c)
  {
    HexByteRoundTrip(c.r);
    HexByteRoundTrip(c.g);
    HexByteRoundTrip(c.b);
    var s := Hex(c);
    assert s == "#" + HexByte(c.r) + HexByte(c.g) + HexByte(c.b);
    assert s[1] == HexByte(c.r)[0] && s[2] == HexByte(c.r)[1];
    assert s[3] == HexByte(c.g)[0] && s[4] == HexByte(c.g)[1];
    assert s[5] == HexByte(c.b)[0] && s[6] == HexByte(c.b)[1];
  }

  datatype PaletteEntry = PaletteEntry(rgb: Rgb, hex: string, name: string)

  /** The dict `generate_palette` returns: the entries and the dominant (first) one. */
  datatype Palette = Palette(entries: seq<PaletteEntry>, dominant: Option<PaletteEntry>)

  /** The entry `generate_palette` builds for one colour. */
  function EntryFor(c: Rgb): PaletteEntry {
    PaletteEntry(c, Hex(c), NAMED_COLORS[Nearest(c)].1)
  }

  /**
   * `extract_dominant_colors`: the cluster centres in cluster order, or the
   * single mid-grey colour when the image could not be read.
   */
  function ExtractDominantColors(centres: Option<seq<Rgb>>): (r: seq<Rgb>)
    ensures centres.None? ==> r == [FALLBACK_GRAY]
    ensures centres.Some? ==> r == centres.value
  {
    centres.GetOr([FALLBACK_GRAY])
  }

  /**
   * `generate_palette` over the extracted colours: one entry per colour in
   * the same order, each named after its nearest table colour, the earliest
   * one on a tie (so the custom-colour fallback never appears), and the first entry as the
   * dominant colour, or none for an empty list.
   */
  function GeneratePalette(colors: seq<Rgb>): (p: Palette)
    ensures |p.entries| == |colors|
    ensures forall i :: 0 <= i < |colors| ==>
      && p.entries[i].rgb == colors[i]
      && ParseHex(p.entries[i].hex) == Some(colors[i])
      && p.entries[i].name == NAMED_COLORS[Nearest(colors[i])].1
    ensures p.dominant == (if |colors| == 0 then None else Some(p.entries[0]))
  {
    var entries := seq(|colors|, i requires 0 <= i < |colors| => EntryFor(colors[i]));
    forall i | 0 <= i < |colors|
      ensures ParseHex(entries[i].hex) == Some(colors[i])
    {
      HexRoundTrip(colors[i]);
    }
    Palette(entries, if |entries| == 0 then None else Some(entries[0]))
  }

  /** Any entry that is nearest and strictly nearer than every earlier entry is the one `Nearest` picks. */
  lemma NearestUnique(c: Rgb, k: nat)
    requires k < |NAMED_COLORS|
    requires forall j :: 0 <= j < |NAMED_COLORS| ==> Distance2(c, NAMED_COLORS[k].0) <= Distance2(c, NAMED_COLORS[j].0)
    requires forall j :: 0 <= j < k ==> Distance2(c, NAMED_COLORS[j].0) > Distance2(c, NAMED_COLORS[k].0)
    ensures Nearest(c) == k
  {
    var n := Nearest(c);
    assert Distance2(c, NAMED_COLORS[n].0) == Distance2(c, NAMED_COLORS[k].0);
  }

  /** Mid-grey is equally near the three dark primaries and nearer to them than to anything else; the first of them wins. */
  lemma GrayNearest()
    ensures Nearest(FALLBACK_GRAY) == 7
  {
    var c := FALLBACK_GRAY;
    var d := [48897, 48897, 48897, 48642, 48642, 48642, 33882, 32768, 32768, 32768];
    forall j | 0 <= j < |NAMED_COLORS|
      ensures Distance2(c, NAMED_COLORS[j].0) == d[j]
    {
    }
    NearestUnique(c, 7);
  }

  /** An unreadable image yields one "#808080" entry named after the nearest table colour, dark red. */
  lemma UnreadablePalette()
    ensures GeneratePalette(ExtractDominantColors(None)).entries
      == [PaletteEntry(FALLBACK_GRAY, "#808080", "深红")]
  {
    GrayNearest();
    assert HexByte(128) == "80";
    assert Hex(FALLBACK_GRAY) == "#808080";
    assert EntryFor(FALLBACK_GRAY) == PaletteEntry(FALLBACK_GRAY, "#808080", "深红");
  }
}
