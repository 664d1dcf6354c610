/**
 * The size calculator of the OC78 form (class OCSizeCalculator in app.py).
 *
 * Lengths, factors and BMI values are exact reals. Every call to Python's
 * random.uniform(lo, hi) is modelled by its own formula, lo + (hi - lo) * u,
 * where the unit draw u (the value random.random() would have produced, in
 * [0, 1)) is an input of the model. The calculator's two tables never change
 * after construction, so they are module constants in insertion order.
 */
module Calculator {

  datatype Option<T> = None | Some(value: T)

  /** A closed interval (low, high) of one random draw. */
  datatype Range = Range(low: real, high: real)

  /** The everyday objects lengths are compared with. */
  datatype RefObject =
    | BankCard | Smartphone | Pencil | SodaCan | TvRemote | Banana | A4ShortSide
    | ColaBottle | LaptopWidth | Forearm | Ruler | LargePizza | HalfMetre

  /** The name the form prints for each reference object. */
  function Label(o: RefObject): string {
    match o
    case BankCard => "银行卡"
    case Smartphone => "智能手机"
    case Pencil => "标准铅笔"
    case SodaCan => "易拉罐高度"
    case TvRemote => "电视遥控器"
    case Banana => "香蕉（中等）"
    case A4ShortSide => "A4纸短边"
    case ColaBottle => "一瓶可乐"
    case LaptopWidth => "笔记本电脑宽度"
    case Forearm => "小臂长度"
    case Ruler => "标准尺子"
    case LargePizza => "大型披萨直径"
    case HalfMetre => "半米长度"
  }

  /** One entry of the reference table: an object and its length in cm. */
  type RefEntry = (RefObject, real)

  /** A unit draw, as produced by random.random(). */
  predicate IsUnitDraw(u: real) {
    0.0 <= u < 1.0
  }

  /** random.uniform(lo, hi) given the unit draw u it consumes. */
  function Uniform(lo: real, hi: real, u: real): (r: real)
    requires lo <= hi && IsUnitDraw(u)
    ensures lo <= r <= hi
    ensures lo < hi ==> r < hi
    ensures lo == hi ==> r == lo
  {
    MulNonNegative(hi - lo, u);
    MulNonNegative(hi - lo, 1.0 - u);
    if lo < hi then MulPositive(hi - lo, 1.0 - u); lo + (hi - lo) * u
    else lo + (hi - lo) * u
  }

  lemma MulNonNegative(a: real, b: real)
    requires a >= 0.0 && b >= 0.0
    ensures a * b >= 0.0
  {
  }

  lemma MulPositive(a: real, b: real)
    requires a > 0.0 && b > 0.0
    ensures a * b > 0.0
  {
  }

  /** Scaling a positive x by a factor f within [lo, hi] lands within [lo * x, hi * x]. */
  lemma ScaledWithin(x: real, f: real, lo: real, hi: real)
    requires x >= 0.0 && lo <= f <= hi
    ensures lo * x <= x * f <= hi * x
  {
    MulNonNegative(x, f - lo);
    MulNonNegative(x, hi - f);
  }

  /** Multiplying two non-negative factors, each within its bounds, keeps the product within the products of the bounds. */
  lemma ProductWithin(a: real, aLo: real, aHi: real, b: real, bLo: real, bHi: real)
    requires 0.0 <= aLo <= a <= aHi && 0.0 <= bLo <= b <= bHi
    ensures aLo * bLo <= a * b <= aHi * bHi
  {
    MulNonNegative(a - aLo, bLo);
    MulNonNegative(a, b - bLo);
    MulNonNegative(aHi - a, b);
    MulNonNegative(aHi, bHi - b);
  }

  function Abs(x: real): (r: real)
    ensures r >= 0.0
    ensures r == x || r == -x
  {
    if x < 0.0 then -x else x
  }

  // ---------------------------------------------------------------------
  // Baselines by ethnicity

  const EastAsian: string := "东亚"
  const WesternEurope: string := "西欧/北美/澳洲"
  const MiddleEast: string := "中东/东欧"
  const CentralWestAfrica: string := "中非/西非"
  const GlobalAverage: string := "全球平均"

  /** The baseline table, in the order the calculator's constructor writes it. */
  const EthnicityBaselines: seq<(string, real)> := [
    (EastAsian, 13.5), (WesternEurope, 14.0), (MiddleEast, 14.5),
    (CentralWestAfrica, 15.0), (GlobalAverage, 14.0)
  ]

  /** The baseline used for an ethnicity that is not in the table. */
  const DefaultBaseline: real := 14.0

  /** Python's dict.get(key, default) on a table written as a sequence of pairs. */
  function Lookup<K(==), V>(table: seq<(K, V)>, key: K, default: V): (r: V)
    ensures (forall i | 0 <= i < |table| :: table[i].0 != key) ==> r == default
    ensures forall i | 0 <= i < |table| && table[i].0 == key ::
              (forall j | 0 <= j < i :: table[j].0 != key) ==> r == table[i].1
  {
    if |table| == 0 then default
    else if table[0].0 == key then table[0].1
    else Lookup(table[1..], key, default)
  }

  /** ethnicity_baselines.get(ethnicity, 14.0) */
  function EthnicityBaseline(ethnicity: string): (r: real)
    ensures 13.5 <= r <= 15.0
    ensures (forall i | 0 <= i < |EthnicityBaselines| :: EthnicityBaselines[i].0 != ethnicity)
              ==> r == DefaultBaseline
    ensures forall i | 0 <= i < |EthnicityBaselines| ::
              EthnicityBaselines[i].0 == ethnicity ==> r == EthnicityBaselines[i].1
  {
    Lookup(EthnicityBaselines, ethnicity, DefaultBaseline)
  }

  // ---------------------------------------------------------------------
  // BMI

  /** calculate_bmi: weight over the square of the height in metres. */
  function Bmi(heightCm: real, weightKg: real): (r: real)
    requires heightCm > 0.0
    ensures r * (heightCm / 100.0) * (heightCm / 100.0) == weightKg
  {
    var heightM := heightCm / 100.0;
    weightKg / (heightM * heightM)
  }

  /** The label the form shows next to the BMI (app.py line 179). */
  datatype BmiCategory = Underweight | Normal | Overweight | Obese

  function CategoryOf(bmi: real): (c: BmiCategory)
    ensures c == Underweight <==> bmi < 18.5
    ensures c == Normal <==> 18.5 <= bmi < 25.0
    ensures c == Overweight <==> 25.0 <= bmi < 30.0
    ensures c == Obese <==> 30.0 <= bmi
  {
    if bmi < 18.5 then Underweight
    else if bmi < 25.0 then Normal
    else if bmi < 30.0 then Overweight
    else Obese
  }

  // ---------------------------------------------------------------------
  // Fat pad

  /** The band of fat pad reductions a BMI of at least 18.5 draws from. */
  function FatPadBand(bmi: real): (b: Range)
    requires bmi >= 18.5
    ensures 0.0 <= b.low < b.high <= 3.0
    ensures bmi <= 24.9 <==> b.high <= 0.5
    ensures bmi > 29.9 <==> b.low >= 1.5
  {
    if bmi <= 24.9 then Range(0.0, 0.5)
    else if bmi <= 29.9 then Range(0.5, 1.5)
    else Range(1.5, 3.0)
  }

  /** A higher BMI never draws from a lower band. */
  lemma FatPadBandMonotone(bmi1: real, bmi2: real)
    requires 18.5 <= bmi1 <= bmi2
    ensures FatPadBand(bmi1).low <= FatPadBand(bmi2).low
    ensures FatPadBand(bmi1).high <= FatPadBand(bmi2).high
  {
  }

  /**
   * The fat pad bands and the category shown on the form use different
   * thresholds (24.9 and 29.9 inclusive against 25 and 30 exclusive): they
   * agree everywhere except on the two gaps (24.9, 25) and (29.9, 30), where a
   * "normal" BMI already draws from the overweight band, and an "overweight"
   * one from the obese band.
   */
  lemma FatPadBandMatchesCategory(bmi: real)
    requires bmi >= 18.5
    ensures !(24.9 < bmi < 25.0) && !(29.9 < bmi < 30.0) ==>
      (FatPadBand(bmi) == Range(0.0, 0.5) <==> CategoryOf(bmi) == Normal) &&
      (FatPadBand(bmi) == Range(0.5, 1.5) <==> CategoryOf(bmi) == Overweight) &&
      (FatPadBand(bmi) == Range(1.5, 3.0) <==> CategoryOf(bmi) == Obese)
    ensures 24.9 < bmi < 25.0 ==> CategoryOf(bmi) == Normal && FatPadBand(bmi) == Range(0.5, 1.5)
    ensures 29.9 < bmi < 30.0 ==> CategoryOf(bmi) == Overweight && FatPadBand(bmi) == Range(1.5, 3.0)
  {
  }

  /** get_fat_pad_reduction: zero below a BMI of 18.5, otherwise a draw from its band. */
  function FatPadReduction(bmi: real, u: real): (r: real)
    requires IsUnitDraw(u)
    ensures bmi < 18.5 ==> r == 0.0
    ensures 18.5 <= bmi <= 24.9 ==> 0.0 <= r <= 0.5
    ensures 24.9 < bmi <= 29.9 ==> 0.5 <= r <= 1.5
    ensures 29.9 < bmi ==> 1.5 <= r <= 3.0
    ensures 0.0 <= r <= 3.0
  {
    if bmi < 18.5 then 0.0
    else
      var band := FatPadBand(bmi);
      Uniform(band.low, band.high, u)
  }

  // ---------------------------------------------------------------------
  // Hormone modifier

  const DevDelayed: string := "发育迟缓"
  const DevBelowAverage: string := "略低于平均"
  const DevAverage: string := "处于平均范围"
  const DevGood: string := "发育良好"
  const DevVeryGood: string := "发育非常充分"
  const DevRandom: string := "随机模式"

  /** range_map of generate_hormone_modifier, in insertion order. */
  const HormoneRanges: seq<(string, Range)> := [
    (DevDelayed, Range(0.80, 0.95)),
    (DevBelowAverage, Range(0.95, 1.00)),
    (DevAverage, Range(1.00, 1.05)),
    (DevGood, Range(1.05, 1.10)),
    (DevVeryGood, Range(1.10, 1.20)),
    (DevRandom, Range(0.80, 1.20))
  ]

  /** The range used for a development label that is not in range_map. */
  const DefaultHormoneRange: Range := Range(1.00, 1.05)

  function HormoneRange(development: string): (r: Range)
    ensures 0.80 <= r.low < r.high <= 1.20
    ensures (forall i | 0 <= i < |HormoneRanges| :: HormoneRanges[i].0 != development)
              ==> r == DefaultHormoneRange
    ensures forall i | 0 <= i < |HormoneRanges| :: HormoneRanges[i].0 == development ==> r == HormoneRanges[i].1
  {
    Lookup(HormoneRanges, development, DefaultHormoneRange)
  }

  /** generate_hormone_modifier: a draw from the range mapped to the label. */
  function HormoneModifier(development: string, u: real): (r: real)
    requires IsUnitDraw(u)
    ensures HormoneRange(development).low <= r <= HormoneRange(development).high
    ensures 0.80 <= r <= 1.20
  {
    var range := HormoneRange(development);
    Uniform(range.low, range.high, u)
  }

  // ---------------------------------------------------------------------
  // Height effect and erection factor

  /** calculate_height_effect: one percent per cm away from 175, clamped to [-0.3, 0.3]. */
  function HeightEffect(heightCm: real): (r: real)
    ensures -0.3 <= r <= 0.3
    ensures -0.3 <= (heightCm - 175.0) * 0.01 <= 0.3 ==> r == (heightCm - 175.0) * 0.01
    ensures (heightCm - 175.0) * 0.01 < -0.3 ==> r == -0.3
    ensures (heightCm - 175.0) * 0.01 > 0.3 ==> r == 0.3
  {
    var linear := (heightCm - 175.0) * 0.01;
    var capped := if 0.3 < linear then 0.3 else linear;
    if capped < -0.3 then -0.3 else capped
  }

  /** A taller character never gets a smaller height effect. */
  lemma HeightEffectMonotone(h1: real, h2: real)
    requires h1 <= h2
    ensures HeightEffect(h1) <= HeightEffect(h2)
  {
  }

  /** calculate_erection_factor */
  function ErectionFactor(u: real): (r: real)
    requires IsUnitDraw(u)
    ensures 1.2 <= r <= 1.7
  {
    Uniform(1.2, 1.7, u)
  }

  // ---------------------------------------------------------------------
  // Special drug effects

  const DrugCobra: string := "Cobra科技🧪"
  const DrugEstrogen: string := "类雌激素🚺"
  const DrugTestosterone: string := "睾酮补充剂"
  const DrugGrowthHormone: string := "生长激素"
  const DrugSteroids: string := "合成类固醇"

  /** The options the form's drug multiselect offers. */
  const DrugOptions: seq<string> := [DrugCobra, DrugEstrogen, DrugTestosterone, DrugGrowthHormone, DrugSteroids]

  /** The factor apply_special_drug_effects multiplies by, given one unit draw per recognised label. */
  function DrugFactor(drugs: seq<string>, uCobra: real, uEstrogen: real): (r: real)
    requires IsUnitDraw(uCobra) && IsUnitDraw(uEstrogen)
    ensures DrugCobra !in drugs && DrugEstrogen !in drugs ==> r == 1.0
    ensures DrugCobra in drugs && DrugEstrogen !in drugs ==> 1.4 <= r <= 2.5
    ensures DrugCobra !in drugs && DrugEstrogen in drugs ==> 0.3 <= r <= 0.7
    ensures DrugCobra in drugs && DrugEstrogen in drugs ==> 0.42 <= r <= 1.75
    ensures 0.3 <= r <= 2.5
  {
    var cobra := if DrugCobra in drugs then Uniform(1.4, 2.5, uCobra) else 1.0;
    var estrogen := if DrugEstrogen in drugs then Uniform(0.3, 0.7, uEstrogen) else 1.0;
    ProductWithin(cobra, if DrugCobra in drugs then 1.4 else 1.0, if DrugCobra in drugs then 2.5 else 1.0,
                  estrogen, if DrugEstrogen in drugs then 0.3 else 1.0, if DrugEstrogen in drugs then 0.7 else 1.0);
    cobra * estrogen
  }

  /** apply_special_drug_effects: the multiplier is built up one recognised label at a time. */
  method ApplySpecialDrugEffects(baseSize: real, drugs: seq<string>, uCobra: real, uEstrogen: real)
    returns (r: real)
    requires IsUnitDraw(uCobra) && IsUnitDraw(uEstrogen)
    ensures r == baseSize * DrugFactor(drugs, uCobra, uEstrogen)
    ensures DrugCobra !in drugs && DrugEstrogen !in drugs ==> r == baseSize
  {
    var modifier := 1.0;
    if |drugs| > 0 {
      if DrugCobra in drugs {
        modifier := modifier * Uniform(1.4, 2.5, uCobra);
      }
      if DrugEstrogen in drugs {
        modifier := modifier * Uniform(0.3, 0.7, uEstrogen);
      }
    }
    assert modifier == DrugFactor(drugs, uCobra, uEstrogen);
    r := baseSize * modifier;
  }

  /** Only the two recognised labels matter: appending any other options changes nothing. */
  lemma OtherDrugsIgnored(drugs: seq<string>, others: seq<string>, uCobra: real, uEstrogen: real)
    requires IsUnitDraw(uCobra) && IsUnitDraw(uEstrogen)
    requires DrugCobra !in others && DrugEstrogen !in others
    ensures DrugFactor(drugs + others, uCobra, uEstrogen) == DrugFactor(drugs, uCobra, uEstrogen)
  {
    assert DrugCobra in drugs + others <==> DrugCobra in drugs;
    assert DrugEstrogen in drugs + others <==> DrugEstrogen in drugs;
  }

  /** Three of the five options on the form have no effect at all. */
  lemma InertOptionsHaveNoEffect(uCobra: real, uEstrogen: real)
    requires IsUnitDraw(uCobra) && IsUnitDraw(uEstrogen)
    ensures DrugFactor([DrugTestosterone, DrugGrowthHormone, DrugSteroids], uCobra, uEstrogen) == 1.0
  {
  }

  // ---------------------------------------------------------------------
  // Reference objects

  /** reference_objects, in insertion order. */
  const ReferenceObjects: seq<RefEntry> := [
    (BankCard, 8.56), (Smartphone, 14.0), (Pencil, 17.5), (SodaCan, 12.0),
    (TvRemote, 16.0), (Banana, 18.0), (A4ShortSide, 21.0), (ColaBottle, 23.0),
    (LaptopWidth, 30.0), (Forearm, 35.0), (Ruler, 40.0),
    (LargePizza, 45.0), (HalfMetre, 50.0)
  ]

  function Dist(x: real, y: real): real {
    Abs(x - y)
  }

  /** Among the first n entries, entry k is nearest to x, and no entry before k is as near. */
  predicate IsFirstClosestAmong(table: seq<RefEntry>, x: real, k: int, n: int) {
    && 0 <= k < n <= |table|
    && (forall j | 0 <= j < n :: Dist(x, table[k].1) <= Dist(x, table[j].1))
    && (forall j | 0 <= j < k :: Dist(x, table[k].1) < Dist(x, table[j].1))
  }

  predicate IsFirstClosest(table: seq<RefEntry>, x: real, k: int) {
    IsFirstClosestAmong(table, x, k, |table|)
  }

  /** At most one index is the first closest one. */
  lemma FirstClosestUnique(table: seq<RefEntry>, x: real, k1: int, k2: int)
    requires IsFirstClosest(table, x, k1) && IsFirstClosest(table, x, k2)
    ensures k1 == k2
  {
    assert Dist(x, table[k1].1) <= Dist(x, table[k2].1);
    assert Dist(x, table[k2].1) <= Dist(x, table[k1].1);
  }

  /** The index of the first entry of least distance, found from the back of the table. */
  function ClosestIndex(table: seq<RefEntry>, x: real): (k: nat)
    requires |table| > 0
    ensures IsFirstClosest(table, x, k)
  {
    if |table| == 1 then 0
    else
      var k' := ClosestIndex(table[1..], x);
      if Dist(x, table[0].1) <= Dist(x, table[k' + 1].1) then 0 else k' + 1
  }

  /** The entry find_closest_reference returns: None only for an empty table. */
  function Closest(table: seq<RefEntry>, x: real): (r: Option<RefEntry>)
    ensures r.None? <==> |table| == 0
    ensures r.Some? ==> r.value in table
    ensures r.Some? ==> forall j | 0 <= j < |table| :: Dist(x, r.value.1) <= Dist(x, table[j].1)
  {
    if |table| == 0 then None else Some(table[ClosestIndex(table, x)])
  }

  /** Closest picks the entry at the first index of least distance, so ties go to the earlier entry. */
  lemma ClosestIsFirst(table: seq<RefEntry>, x: real, k: int)
    requires IsFirstClosest(table, x, k)
    ensures Closest(table, x) == Some(table[k])
  {
    FirstClosestUnique(table, x, k, ClosestIndex(table, x));
  }

  /**
   * find_closest_reference: a linear scan that keeps the first entry of least
   * distance (the comparison is strict, and the initial distance is infinite,
   * modelled by "nothing found yet").
   */
  method FindClosestReference(lengthCm: real) returns (closest: Option<RefEntry>)
    ensures closest == Closest(ReferenceObjects, lengthCm)
    ensures closest.Some?
  {
    var table := ReferenceObjects;
    closest := None;
    var minDiff := 0.0;
    ghost var best := 0;
    for i := 0 to |table|
      invariant closest.None? <==> i == 0
      invariant i > 0 ==> IsFirstClosestAmong(table, lengthCm, best, i)
      invariant i > 0 ==> closest == Some(table[best]) && minDiff == Dist(lengthCm, table[best].1)
    {
      var diff := Abs(lengthCm - table[i].1);
      if closest.None? || diff < minDiff {
        minDiff, closest := diff, Some(table[i]);
        best := i;
      }
    }
    ClosestIsFirst(table, lengthCm, best);
  }

  /** A length of 14.0 matches the smartphone exactly. */
  lemma ClosestToFourteen()
    ensures Closest(ReferenceObjects, 14.0) == Some((Smartphone, 14.0))
  {
    var t := ReferenceObjects;
    assert IsFirstClosest(t, 14.0, 1);
    ClosestIsFirst(t, 14.0, 1);
  }

  /** Which sentence get_reference_comparison builds, with the numbers it prints. */
  datatype Comparison =
    | AboutEqual(obj: RefObject, objLength: real)
    | Longer(obj: RefObject, amount: real)
    | Shorter(obj: RefObject, amount: real)

  /** get_reference_comparison, against the closest reference object. */
  function ReferenceComparison(lengthCm: real): (c: Comparison)
    ensures c.obj == Closest(ReferenceObjects, lengthCm).value.0
    ensures c.AboutEqual? <==> Abs(lengthCm - Closest(ReferenceObjects, lengthCm).value.1) < 0.5
    ensures c.AboutEqual? ==> c.objLength == Closest(ReferenceObjects, lengthCm).value.1
    ensures c.Longer? ==> c.amount >= 0.5 && lengthCm == Closest(ReferenceObjects, lengthCm).value.1 + c.amount
    ensures c.Shorter? ==> c.amount >= 0.5 && lengthCm == Closest(ReferenceObjects, lengthCm).value.1 - c.amount
  {
    var entry := Closest(ReferenceObjects, lengthCm).value;
    var (obj, objLength) := entry;
    var difference := lengthCm - objLength;
    if Abs(difference) < 0.5 then AboutEqual(obj, objLength)
    else if difference > 0.0 then Longer(obj, difference)
    else Shorter(obj, Abs(difference))
  }

  /** A length of 14.0 is reported as about the length of a smartphone. */
  lemma ComparisonAtFourteen()
    ensures ReferenceComparison(14.0) == AboutEqual(Smartphone, 14.0)
  {
    ClosestToFourteen();
  }

  // ---------------------------------------------------------------------
  // The whole calculation

  /** The unit draws one calculation consumes, one per random.uniform call site. */
  datatype Draws = Draws(hormone: real, cobra: real, estrogen: real, fatPad: real, erection: real)

  predicate ValidDraws(d: Draws) {
    IsUnitDraw(d.hormone) && IsUnitDraw(d.cobra) && IsUnitDraw(d.estrogen)
    && IsUnitDraw(d.fatPad) && IsUnitDraw(d.erection)
  }

  /** The numeric entries of calculate's result dictionary, before display rounding. */
  datatype Measurements = Measurements(
    flaccidActual: real,
    flaccidVisible: real,
    erectLength: real,
    erectionFactor: real,
    hormoneModifier: real,
    fatPad: real,
    bmi: real,
    adjustedBase: real)

  /** calculate's result dictionary: the measurements and a reference comparison for each length. */
  datatype CalcResult = CalcResult(
    values: Measurements,
    actualReference: Comparison,
    visibleReference: Comparison,
    erectReference: Comparison)

  /** flaccid_actual: the adjusted base times the hormone modifier, then times the drug factor. */
  function FlaccidActual(adjustedBase: real, hormone: real, drugFactor: real): (r: real)
    requires 13.2 <= adjustedBase <= 15.3 && 0.8 <= hormone <= 1.2 && 0.3 <= drugFactor <= 2.5
    ensures 3.168 <= r <= 45.9
  {
    ProductWithin(adjustedBase, 13.2, 15.3, hormone, 0.8, 1.2);
    ProductWithin(adjustedBase * hormone, 13.2 * 0.8, 15.3 * 1.2, drugFactor, 0.3, 2.5);
    adjustedBase * hormone * drugFactor
  }

  /** flaccid_visible: max(0, actual - fat_pad). */
  function FlaccidVisible(actual: real, fatPad: real): (r: real)
    requires 0.0 <= fatPad
    ensures r == actual - fatPad || r == 0.0
    ensures 0.0 <= r && actual - fatPad <= r
    ensures actual >= 0.0 ==> r <= actual
  {
    if actual - fatPad > 0.0 then actual - fatPad else 0.0
  }

  /** erect_length: the actual length times the erection factor. */
  function ErectLength(actual: real, erectionFactor: real): (r: real)
    requires actual >= 0.0 && 1.2 <= erectionFactor <= 1.7
    ensures 1.2 * actual <= r <= 1.7 * actual
  {
    ScaledWithin(actual, erectionFactor, 1.2, 1.7);
    actual * erectionFactor
  }

  /** The numbers calculate chains from baseline, height effect, hormone, drugs, fat pad and erection factor. */
  function Measure(ethnicity: string, heightCm: real, weightKg: real, development: string,
                   drugs: seq<string>, d: Draws): (r: Measurements)
    requires heightCm > 0.0 && ValidDraws(d)
    ensures r.adjustedBase == EthnicityBaseline(ethnicity) + HeightEffect(heightCm)
    ensures 13.2 <= r.adjustedBase <= 15.3
    ensures r.hormoneModifier == HormoneModifier(development, d.hormone)
    ensures r.flaccidActual == FlaccidActual(r.adjustedBase, r.hormoneModifier, DrugFactor(drugs, d.cobra, d.estrogen))
    ensures 3.168 <= r.flaccidActual <= 45.9
    ensures r.bmi == Bmi(heightCm, weightKg)
    ensures r.fatPad == FatPadReduction(r.bmi, d.fatPad)
    ensures r.flaccidVisible == (if r.flaccidActual - r.fatPad > 0.0 then r.flaccidActual - r.fatPad else 0.0)
    ensures 0.0 <= r.flaccidVisible <= r.flaccidActual
    ensures r.erectionFactor == ErectionFactor(d.erection)
    ensures r.erectLength == ErectLength(r.flaccidActual, r.erectionFactor)
    ensures 1.2 * r.flaccidActual <= r.erectLength <= 1.7 * r.flaccidActual
  {
    var adjustedBase := EthnicityBaseline(ethnicity) + HeightEffect(heightCm);
    var hormone := HormoneModifier(development, d.hormone);
    var actual := FlaccidActual(adjustedBase, hormone, DrugFactor(drugs, d.cobra, d.estrogen));
    var bmi := Bmi(heightCm, weightKg);
    var fatPad := FatPadReduction(bmi, d.fatPad);
    var visible := FlaccidVisible(actual, fatPad);
    var factor := ErectionFactor(d.erection);
    var erect := ErectLength(actual, factor);
    Measurements(actual, visible, erect, factor, hormone, fatPad, bmi, adjustedBase)
  }

  /** calculate: the measurements, each length compared with its closest reference object. */
  function Calculate(ethnicity: string, heightCm: real, weightKg: real, development: string,
                     drugs: seq<string>, d: Draws): (r: CalcResult)
    requires heightCm > 0.0 && ValidDraws(d)
    ensures r.values == Measure(ethnicity, heightCm, weightKg, development, drugs, d)
    ensures 3.168 <= r.values.flaccidActual <= 45.9
    ensures 0.0 <= r.values.flaccidVisible <= r.values.flaccidActual
    ensures 1.2 * r.values.flaccidActual <= r.values.erectLength <= 1.7 * r.values.flaccidActual
    ensures r.actualReference == ReferenceComparison(r.values.flaccidActual)
    ensures r.visibleReference == ReferenceComparison(r.values.flaccidVisible)
    ensures r.erectReference == ReferenceComparison(r.values.erectLength)
  {
    var m := Measure(ethnicity, heightCm, weightKg, development, drugs, d);
    CalcResult(m, ReferenceComparison(m.flaccidActual), ReferenceComparison(m.flaccidVisible),
               ReferenceComparison(m.erectLength))
  }

  /**
   * A worked case: an East Asian character of 175 cm and 70 kg with average
   * development and no drugs has base 13.5, an actual length within
   * [13.5, 14.175], a BMI in the normal band, and a visible length within
   * [13.0, 14.175].
   */
  lemma CalculateExample(d: Draws)
    requires ValidDraws(d)
    ensures var r := Measure(EastAsian, 175.0, 70.0, DevAverage, [], d);
      && r.adjustedBase == 13.5
      && 13.5 <= r.flaccidActual <= 14.175
      && 18.5 <= r.bmi <= 24.9
      && 0.0 <= r.fatPad <= 0.5
      && 13.0 <= r.flaccidVisible <= 14.175
  {
    var r := Measure(EastAsian, 175.0, 70.0, DevAverage, [], d);
    assert r.adjustedBase == 13.5 by {
      assert EthnicityBaselines[0].0 == EastAsian;
    }
    assert 1.00 <= r.hormoneModifier <= 1.05 by {
      assert HormoneRanges[2].0 == DevAverage;
    }
    assert DrugFactor([], d.cobra, d.estrogen) == 1.0;
    ActualWithinExample(r.hormoneModifier);
    assert 18.5 <= r.bmi <= 24.9 by {
      BmiExample();
    }
  }

  lemma ActualWithinExample(hormone: real)
    requires 1.00 <= hormone <= 1.05
    ensures 13.5 <= FlaccidActual(13.5, hormone, 1.0) <= 14.175
  {
    ScaledWithin(13.5, hormone, 1.00, 1.05);
  }

  lemma BmiExample()
    ensures 18.5 <= Bmi(175.0, 70.0) <= 24.9
  {
    assert Bmi(175.0, 70.0) * 1.75 * 1.75 == 70.0;
  }
}
