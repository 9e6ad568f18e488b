/** Algorithm configurations of the analysis service, their normalisation, detections, and the
    intersection over union of two boxes. Reals stand for Python's floats. */
module AnalysisConfig {
  import opened Wrappers
  import opened Text

  datatype Mode = SmallOnly | LlmOnly | Hybrid

  datatype Box = Box(xMin: int, yMin: int, xMax: int, yMax: int)

  datatype Detection = Detection(name: string, confidence: real, box: Box)

  datatype Config = Config(id: string, taskCode: string, mode: Mode, labels: seq<string>,
                           threshold: real, iouThreshold: real, needsAll: bool)

  // A configuration as received; None stands for a missing or unreadable number.
  datatype RawConfig = RawConfig(id: string, taskCode: string, mode: Option<int>, labels: seq<string>,
                                 threshold: Option<real>, iouThreshold: Option<real>, trigger: string)

  // --- Normalisation ---

  function LowerAll(labels: seq<string>): set<string> {
    set s | s in labels :: Lower(s)
  }

  function Clamp(value: Option<real>, default: real, low: real, high: real): real {
    if value.None? || value.value <= 0.0 then default
    else if value.value < low then low
    else if value.value > high then high
    else value.value
  }

  function SafeConf(value: Option<real>): real { Clamp(value, 0.5, 0.01, 0.99) }

  function SafeIou(value: Option<real>): real { Clamp(value, 0.8, 0.1, 0.99) }

  function ModeOf(raw: Option<int>): Mode {
    match raw
    case Some(1) => SmallOnly
    case Some(2) => LlmOnly
    case _ => Hybrid
  }

  // Non-blank stripped labels, the first of each spelling that differs in case only.
  predicate CleanLabels(labels: seq<string>) {
    && (forall i | 0 <= i < |labels| :: labels[i] != "" && TrimSpace(labels[i]) == labels[i])
    && (forall i, j | 0 <= i < j < |labels| :: Lower(labels[i]) != Lower(labels[j]))
  }

  function LabelsOf(raw: seq<string>): seq<string> {
    if raw == [] then []
    else
      var rest, name := LabelsOf(raw[..|raw| - 1]), TrimSpace(raw[|raw| - 1]);
      if name == "" || Lower(name) in LowerAll(rest) then rest else rest + [name]
  }

  // Only stripped, non-blank labels, distinct up to case, of exactly the given spellings.
  lemma {:induction false} LabelsAreClean(raw: seq<string>)
    ensures CleanLabels(LabelsOf(raw))
    ensures LowerAll(LabelsOf(raw)) == set s | s in raw && TrimSpace(s) != "" :: Lower(TrimSpace(s))
  {
    if raw != [] {
      var init, last := raw[..|raw| - 1], raw[|raw| - 1];
      LabelsAreClean(init);
      assert raw == init + [last];
      TrimSpaceTrims(last);
      TrimSpaceTrims(TrimSpace(last));
      var rest, name := LabelsOf(init), TrimSpace(last);
      assert LowerAll(rest + [name]) == LowerAll(rest) + {Lower(name)};
      forall i | 0 <= i < |rest| ensures Lower(rest[i]) in LowerAll(rest) { assert rest[i] in rest; }
    }
  }

  method NormalizeLabels(raw: seq<string>) returns (labels: seq<string>)
    ensures labels == LabelsOf(raw)
  {
    labels := [];
    var seen: set<string> := {};
    for i := 0 to |raw|
      invariant labels == LabelsOf(raw[..i]) && seen == LowerAll(labels)
    {
      assert raw[..i + 1][..i] == raw[..i];
      var name := TrimSpace(raw[i]);
      if name == "" { continue; }
      var key := Lower(name);
      if key in seen { continue; }
      assert LowerAll(labels + [name]) == LowerAll(labels) + {key};
      seen := seen + {key};
      labels := labels + [name];
    }
    assert raw[..|raw|] == raw;
  }

  // What every normalised configuration satisfies.
  predicate Normalised(cfg: Config) {
    && cfg.id != "" && TrimSpace(cfg.id) == cfg.id && TrimSpace(cfg.taskCode) == cfg.taskCode
    && CleanLabels(cfg.labels) && 0.01 <= cfg.threshold <= 0.99 && 0.1 <= cfg.iouThreshold <= 0.99
  }

  function ConfigOf(raw: RawConfig): Config {
    Config(TrimSpace(raw.id), TrimSpace(raw.taskCode), ModeOf(raw.mode), LabelsOf(raw.labels), SafeConf(raw.threshold),
           SafeIou(raw.iouThreshold), Lower(TrimSpace(raw.trigger)) == "all")
  }

  /** A threshold is kept when it lies in its range, drawn to the nearer end when it is positive, and
      replaced by the default when it is missing or not; only modes 1 and 2 are not hybrid. */
  lemma SettingsMean(value: Option<real>, mode: Option<int>)
    ensures (value == None ==> SafeConf(value) == 0.5 && SafeIou(value) == 0.8)
    ensures forall v | value == Some(v) ::
      && (v <= 0.0 ==> SafeConf(value) == 0.5 && SafeIou(value) == 0.8)
      && (0.01 <= v <= 0.99 ==> SafeConf(value) == v) && (0.0 < v < 0.01 ==> SafeConf(value) == 0.01)
      && (0.1 <= v <= 0.99 ==> SafeIou(value) == v) && (0.0 < v < 0.1 ==> SafeIou(value) == 0.1)
      && (v > 0.99 ==> SafeConf(value) == 0.99 && SafeIou(value) == 0.99)
    ensures (ModeOf(mode) == SmallOnly <==> mode == Some(1)) && (ModeOf(mode) == LlmOnly <==> mode == Some(2))
  {}

  /** A configuration keeps its texts without the white space around them, its labels cleaned, and asks
      for all of them exactly when its trigger says "all", in any case. */
  lemma ConfigMeans(raw: RawConfig)
    ensures var cfg := ConfigOf(raw);
      && cfg.id == TrimSpace(raw.id) && cfg.taskCode == TrimSpace(raw.taskCode) && cfg.mode == ModeOf(raw.mode)
      && cfg.labels == LabelsOf(raw.labels) && cfg.threshold == SafeConf(raw.threshold) && cfg.iouThreshold == SafeIou(raw.iouThreshold)
      && (cfg.needsAll <==> Lower(TrimSpace(raw.trigger)) == ['a', 'l', 'l'])
  {}

  /** A label is kept exactly when it is not blank and no label before it is spelled like it, in any case. */
  lemma LabelKept(before: seq<string>, name: string)
    ensures LabelsOf(before + [name]) ==
      if TrimSpace(name) != "" && forall s | s in before :: Lower(TrimSpace(s)) != Lower(TrimSpace(name))
      then LabelsOf(before) + [TrimSpace(name)] else LabelsOf(before)
  {
    LabelsAreClean(before);
    assert (before + [name])[..|before|] == before;
    assert TrimSpace(name) != "" ==> Lower(TrimSpace(name)) != "" by { assert |Lower(TrimSpace(name))| == |TrimSpace(name)|; }
    forall s | s in before && TrimSpace(s) == "" ensures Lower(TrimSpace(s)) == "" {}
  }

  /** A configuration is kept exactly when it names an algorithm. */
  lemma ConfigKept(before: seq<RawConfig>, raw: RawConfig)
    ensures ConfigsOf(before + [raw]) == ConfigsOf(before) + if TrimSpace(raw.id) != "" then [ConfigOf(raw)] else []
  {
    assert (before + [raw])[..|before|] == before;
  }

  // The configurations that name an algorithm, in order.
  function ConfigsOf(raw: seq<RawConfig>): seq<Config> {
    if raw == [] then []
    else
      ConfigsOf(raw[..|raw| - 1]) + if TrimSpace(raw[|raw| - 1].id) == "" then [] else [ConfigOf(raw[|raw| - 1])]
  }

  lemma {:induction false} ConfigsAreNormalised(raw: seq<RawConfig>)
    ensures forall cfg | cfg in ConfigsOf(raw) :: Normalised(cfg)
  {
    if raw != [] {
      var last := raw[|raw| - 1];
      ConfigsAreNormalised(raw[..|raw| - 1]);
      LabelsAreClean(last.labels);
      TrimSpaceTrims(last.id);
      TrimSpaceTrims(TrimSpace(last.id));
      TrimSpaceTrims(last.taskCode);
      TrimSpaceTrims(TrimSpace(last.taskCode));
    }
  }

  method NormalizeConfigs(raw: seq<RawConfig>) returns (configs: seq<Config>)
    ensures configs == ConfigsOf(raw)
    ensures forall cfg | cfg in configs :: Normalised(cfg)
  {
    configs := [];
    for i := 0 to |raw|
      invariant configs == ConfigsOf(raw[..i])
    {
      assert raw[..i + 1][..i] == raw[..i];
      var id, taskCode := TrimSpace(raw[i].id), TrimSpace(raw[i].taskCode);
      if id == "" { continue; }
      var labels := NormalizeLabels(raw[i].labels);
      configs := configs + [Config(id, taskCode, ModeOf(raw[i].mode), labels, SafeConf(raw[i].threshold),
                                   SafeIou(raw[i].iouThreshold), Lower(TrimSpace(raw[i].trigger)) == "all")];
    }
    assert raw[..|raw|] == raw;
    ConfigsAreNormalised(raw);
  }

  // --- Intersection over union ---

  const EPSILON := 0.000001

  function Max(a: int, b: int): int { if a >= b then a else b }
  function Min(a: int, b: int): int { if a <= b then a else b }

  function Area(b: Box): int { (b.xMax - b.xMin) * (b.yMax - b.yMin) }

  function Overlap(a: Box, b: Box): int {
    Max(0, Min(a.xMax, b.xMax) - Max(a.xMin, b.xMin)) * Max(0, Min(a.yMax, b.yMax) - Max(a.yMin, b.yMin))
  }

  lemma NeverZero(n: int)
    ensures n as real + EPSILON != 0.0
  {}

  // Integer coordinates keep the divisor away from zero.
  function Iou(a: Box, b: Box): real {
    var union := Area(a) + Area(b) - Overlap(a, b);
    NeverZero(union);
    Overlap(a, b) as real / (union as real + EPSILON)
  }

  /** The share of the overlap in what the boxes cover together. */
  lemma IouMeans(a: Box, b: Box, threshold: real)
    ensures var both := ((a.xMax - a.xMin) * (a.yMax - a.yMin) + (b.xMax - b.xMin) * (b.yMax - b.yMin) - Overlap(a, b)) as real + 0.000001;
      Iou(a, b) * both == Overlap(a, b) as real && (both > 0.0 ==> (Iou(a, b) >= threshold <==> Overlap(a, b) as real >= threshold * both))
  {
    var both := (Area(a) + Area(b) - Overlap(a, b)) as real + EPSILON;
    NeverZero(Area(a) + Area(b) - Overlap(a, b));
    Quotient(Overlap(a, b) as real, both, threshold);
  }

  lemma Quotient(x: real, y: real, threshold: real)
    requires y != 0.0
    ensures (x / y) * y == x && (y > 0.0 ==> (x / y >= threshold <==> x >= threshold * y))
  {
    var q := x / y;
    assert q * y == x;
    if y > 0.0 {
      if q >= threshold { TimesKeeps(threshold, q, y); } else { TimesKeeps(q, threshold, y); }
    }
  }

  lemma TimesKeeps(a: real, b: real, y: real)
    requires a <= b && y > 0.0
    ensures a * y <= b * y && (a < b ==> a * y < b * y)
  {}

  predicate Proper(b: Box) { b.xMin < b.xMax && b.yMin < b.yMax }

  predicate Between(x: int, low: int, high: int) { low <= x <= high }

  // `both` is what lies in `a` and in `b` along each axis.
  ghost predicate IsCommon(a: Box, b: Box, both: Box) {
    && (forall x :: Between(x, both.xMin, both.xMax) <==> Between(x, a.xMin, a.xMax) && Between(x, b.xMin, b.xMax))
    && (forall y :: Between(y, both.yMin, both.yMax) <==> Between(y, a.yMin, a.yMax) && Between(y, b.yMin, b.yMax))
  }

  /** The overlap is the area of what lies in both boxes, and nothing when they are apart. */
  lemma OverlapMeans(a: Box, b: Box, both: Box)
    requires IsCommon(a, b, both)
    ensures both.xMin <= both.xMax && both.yMin <= both.yMax ==> Overlap(a, b) == Area(both)
    ensures both.xMin > both.xMax || both.yMin > both.yMax ==> Overlap(a, b) == 0
  {
    Ends(a.xMin, a.xMax, b.xMin, b.xMax, both.xMin, both.xMax);
    Ends(a.yMin, a.yMax, b.yMin, b.yMax, both.yMin, both.yMax);
  }

  lemma Ends(a1: int, a2: int, b1: int, b2: int, low: int, high: int)
    requires forall x :: Between(x, low, high) <==> Between(x, a1, a2) && Between(x, b1, b2)
    ensures if low <= high then low == Max(a1, b1) && high == Min(a2, b2) else Min(a2, b2) < Max(a1, b1)
  {
    var from, to := Max(a1, b1), Min(a2, b2);
    assert Between(from, low, high) <==> Between(from, a1, a2) && Between(from, b1, b2);
    assert Between(to, low, high) <==> Between(to, a1, a2) && Between(to, b1, b2);
    assert Between(low, low, high) <==> Between(low, a1, a2) && Between(low, b1, b2);
    assert Between(high, low, high) <==> Between(high, a1, a2) && Between(high, b1, b2);
  }

  lemma OverlapBound(a: Box, b: Box)
    requires Proper(a)
    ensures 0 <= Overlap(a, b) <= Area(a)
  {
    var w := Max(0, Min(a.xMax, b.xMax) - Max(a.xMin, b.xMin));
    var h := Max(0, Min(a.yMax, b.yMax) - Max(a.yMin, b.yMin));
    MulLe(w, h, a.xMax - a.xMin, a.yMax - a.yMin);
  }

  lemma MulLe(w: nat, h: nat, w1: nat, h1: nat)
    requires w <= w1 && h <= h1
    ensures 0 <= w * h <= w1 * h1
  {
    assert w * h <= w * h1 <= w1 * h1;
  }

  /** For boxes of positive area the measure is symmetric, never negative and always below one. */
  lemma IouBounds(a: Box, b: Box)
    requires Proper(a) && Proper(b)
    ensures 0.0 <= Iou(a, b) < 1.0 && Iou(a, b) == Iou(b, a)
  {
    OverlapBound(a, b);
    assert Overlap(a, b) == Overlap(b, a);
    OverlapBound(b, a);
    var n, d := Overlap(a, b) as real, (Area(a) + Area(b) - Overlap(a, b)) as real + EPSILON;
    assert 0.0 <= n < d;
    QuotientBelow(n, d, 1.0);
  }

  lemma QuotientBelow(n: real, d: real, t: real)
    requires d > 0.0
    ensures n / d < t <==> n < t * d
    ensures n >= 0.0 ==> n / d >= 0.0
  {
    assert n / d * d == n;
    MulLess(n / d, t, d);
    MulLess(t, n / d, d);
    MulLess(n / d, 0.0, d);
  }

  lemma MulLess(a: real, b: real, d: real)
    requires d > 0.0
    ensures a < b ==> a * d < b * d
    ensures a <= b ==> a * d <= b * d
  {
    assert (b - a) * d == b * d - a * d;
  }

  lemma PositiveArea(b: Box)
    requires Proper(b)
    ensures Area(b) >= 1
  {
    MulLe(1, 1, b.xMax - b.xMin, b.yMax - b.yMin);
  }

  /** A box covers itself exactly when its area outweighs the divisor's epsilon. */
  lemma SelfIouIff(b: Box, threshold: real)
    requires Proper(b)
    ensures Iou(b, b) >= threshold <==> Area(b) as real * (1.0 - threshold) >= threshold * EPSILON
  {
    PositiveArea(b);
    var n, d := Area(b) as real, Area(b) as real + EPSILON;
    assert Overlap(b, b) == Area(b);
    QuotientBelow(n, d, threshold);
    assert threshold * d == threshold * n + threshold * EPSILON;
    assert n * (1.0 - threshold) == n - n * threshold;
  }

  /** Every normalised threshold accepts a box as its own repetition. */
  lemma SelfIouPasses(b: Box, threshold: real)
    requires Proper(b) && 0.1 <= threshold <= 0.99
    ensures Iou(b, b) >= threshold
  {
    hide Iou, Area;
    PositiveArea(b);
    SelfIouIff(b, threshold);
    var n, rest := Area(b) as real, 1.0 - threshold;
    MulLess(1.0, n, rest);
    assert n * rest >= 1.0 * rest >= 0.01 > threshold * EPSILON;
    assert Area(b) as real * (1.0 - threshold) == n * rest;
  }
}
